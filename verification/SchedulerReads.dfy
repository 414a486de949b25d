/** What a poll reports of a running request, for everything that a read of its worker can meet. */
module SchedulerReads {
  import opened Messages
  import opened WorkerModel
  import opened SchedulerSpec
  import opened SchedulerInvariants
  import opened SchedulerLosses

  /* ---- Other requests ---- */

  ghost predicate NotQueued(s: State, id: RequestId) {
    forall k :: 0 <= k < |s.pending| ==> s.pending[k].request.id != id
  }

  ghost predicate Runs(s: State, w: nat, id: RequestId) {
    w in s.active && s.active[w] == id
  }

  // What happened between the two states did not concern `id`.
  ghost predicate Apart(s: State, t: State, id: RequestId) {
    && For(id, t.events) == For(id, s.events) && NotQueued(t, id)
    && forall w: nat :: Runs(t, w, id) <==> Runs(s, w, id)
  }

  lemma EmitApart(id: RequestId, ms: seq<Message>, m: Message)
    requires m.requestId != Some(id)
    ensures For(id, ms + [m]) == For(id, ms)
  {
    ForConcat(id, ms, [m]);
    assert For(id, [m]) == [];
  }

  lemma EmitOwn(id: RequestId, ms: seq<Message>, m: Message)
    requires m.requestId == Some(id)
    ensures For(id, ms + [m]) == For(id, ms) + [m]
  {
    ForConcat(id, ms, [m]);
    assert [m][1..] == [];
  }

  lemma {:induction false} ExpiryApart(s: State, now: real, timeout: real, id: RequestId)
    requires NotQueued(s, id)
    ensures Apart(s, ExpireHeads(s, now, timeout), id)
    decreases |s.pending|
  {
    if s.pending != [] && Overdue(s.pending[0], now, timeout) {
      var m := Failure(FromScheduler, s.pending[0].request.id, QueueTimeout);
      EmitApart(id, s.events, m);
      ExpiryApart(RetireHead(s, m), now, timeout, id);
    }
  }

  lemma {:induction false} FailingApart(s: State, id: RequestId)
    requires NotQueued(s, id)
    ensures Apart(s, FailHeads(s), id)
    decreases |s.pending|
  {
    if s.pending != [] {
      var m := Failure(FromScheduler, s.pending[0].request.id, NoHealthyWorker);
      EmitApart(id, s.events, m);
      FailingApart(RetireHead(s, m), id);
    }
  }

  lemma {:induction false} DispatchApart(s: State, now: real, broken: set<nat>, id: RequestId)
    requires Shape(s) && NotQueued(s, id)
    ensures Apart(s, DispatchLoop(s, now, broken).0, id)
    decreases |s.pending|
  {
    var i := FirstReady(s.workers);
    if s.pending != [] && BelowCap(s) && i < |s.workers| && i !in broken {
      var t := AssignHead(s, i, now);
      AssignApart(s, i, now, t, id);
      DispatchApart(t, now, broken, id);
    }
  }

  lemma AssignApart(s: State, i: nat, now: real, t: State, id: RequestId)
    requires Shape(s) && NotQueued(s, id) && s.pending != [] && i < |s.workers| && s.workers[i].state.Ready?
    requires t == AssignHead(s, i, now)
    ensures Shape(t) && Apart(s, t, id)
  {
  }

  lemma PendingApart(s: State, now: real, broken: set<nat>, id: RequestId)
    requires Core(s) && NotQueued(s, id)
    ensures Apart(s, DispatchPending(s, now, broken).0, id)
  {
    if s.config.queueTimeout.Some? { ExpiryApart(s, now, s.config.queueTimeout.value, id); }
    ExpirePendingKeeps(s, now);
    DispatchApart(ExpirePending(s, now), now, broken, id);
  }

  lemma ApartTrans(s: State, t: State, r: State, id: RequestId)
    requires Apart(s, t, id) && Apart(t, r, id)
    ensures Apart(s, r, id)
  {
  }

  // The visit to a worker that runs another request, or none.
  lemma OtherVisitApart(s: State, j: nat, reply: Reply, id: RequestId)
    requires Core(s) && j < |s.workers| && NotQueued(s, id) && !Runs(s, j, id)
    ensures Apart(s, PollWorker(s, j, reply).0, id)
  {
    if j in s.active {
      var (w, received) := Receive(s.workers[j], reply.read);
      assert s.workers[j] == Worker(Busy, Some(s.active[j]));
      if received.Broke? {
        EmitApart(id, s.events, Failure(FromWorker(j), s.active[j], received.code));
      } else if received.Delivered? {
        EmitApart(id, s.events, received.message);
        if Terminal(received.message.kind) {
          FinishKeeps(s, j, w, received.message);
          EndApart(s, Finish(s, j, w, received.message), reply.at, reply.broken, id);
        }
      }
    }
  }

  lemma EndApart(s: State, u: State, now: real, broken: set<nat>, id: RequestId)
    requires Core(u) && Apart(s, u, id)
    ensures Apart(s, DispatchPending(u, now, broken).0, id)
  {
    PendingApart(u, now, broken, id);
    ApartTrans(s, u, DispatchPending(u, now, broken).0, id);
  }

  /* ---- The request itself ---- */

  // What is to be reported of request `id`, which worker `i` is running, after the read.  A message that names no
  // request ends it unnamed.
  function Report(i: nat, id: RequestId, read: Read): seq<Message> {
    match read
    case Nothing(true) => []
    case Nothing(false) => [Failure(FromWorker(i), id, WorkerExited)]
    case Unreadable => [Failure(FromWorker(i), id, WorkerTransportFailed)]
    case Foreign => [Failure(FromWorker(i), id, InvalidWorkerMessage)]
    case Got(m) =>
      if m.requestId == Some(id) then [m]
      else if m.requestId == None then []
      else [Failure(FromWorker(i), id, RequestIdMismatch)]
  }

  // The read leaves the request running.
  predicate GoesOn(id: RequestId, read: Read) {
    match read
    case Nothing(alive) => alive
    case Got(m) => m.requestId in {None, Some(id)} && !Terminal(m.kind)
    case _ => false
  }

  ghost predicate OnlyAt(s: State, i: nat, id: RequestId) {
    NotQueued(s, id) && forall w: nat :: Runs(s, w, id) <==> w == i
  }

  ghost predicate Nowhere(s: State, id: RequestId) {
    NotQueued(s, id) && forall w: nat :: !Runs(s, w, id)
  }

  lemma FreedNowhere(s: State, t: State, i: nat, id: RequestId)
    requires OnlyAt(s, i, id) && t.active == s.active - {i} && t.pending == s.pending
    ensures Nowhere(t, id)
  {
    forall w: nat ensures !Runs(t, w, id) {
      assert Runs(s, w, id) <==> w == i;
    }
  }

  lemma StillThere(s: State, t: State, i: nat, id: RequestId)
    requires OnlyAt(s, i, id) && t.active == s.active && t.pending == s.pending
    ensures OnlyAt(t, i, id)
  {
    forall w: nat ensures Runs(t, w, id) <==> w == i {
      assert Runs(s, w, id) <==> w == i;
    }
  }

  lemma ApartNowhere(s: State, t: State, id: RequestId)
    requires Nowhere(s, id) && Apart(s, t, id)
    ensures Nowhere(t, id) && For(id, t.events) == For(id, s.events)
  {
  }

  // The visit to the worker that runs it.
  lemma OwnVisit(s: State, i: nat, reply: Reply, id: RequestId)
    requires Core(s) && i < |s.workers| && OnlyAt(s, i, id)
    ensures var t := PollWorker(s, i, reply).0;
      && For(id, t.events) == For(id, s.events) + Report(i, id, reply.read)
      && (if GoesOn(id, reply.read) then OnlyAt(t, i, id) else Nowhere(t, id))
  {
    assert Runs(s, i, id) && s.workers[i] == Worker(Busy, Some(id));
    var (w, received) := Receive(s.workers[i], reply.read);
    match received {
      case TimedOut =>
      case Broke(code) =>
        EmitOwn(id, s.events, Failure(FromWorker(i), id, code));
        FreedNowhere(s, PollWorker(s, i, reply).0, i, id);
      case Delivered(m) =>
        if Terminal(m.kind) { LastVisit(s, i, reply, id, m); } else { ChunkVisit(s, i, reply, id, m); }
    }
  }

  lemma ChunkVisit(s: State, i: nat, reply: Reply, id: RequestId, m: Message)
    requires Core(s) && i < |s.workers| && OnlyAt(s, i, id) && i in s.active && s.workers[i] == Worker(Busy, Some(id))
    requires reply.read == Got(m) && m.requestId in {None, Some(id)} && !Terminal(m.kind)
    ensures var t := PollWorker(s, i, reply).0;
      For(id, t.events) == For(id, s.events) + Report(i, id, reply.read) && OnlyAt(t, i, id)
  {
    if m.requestId == Some(id) { EmitOwn(id, s.events, m); } else { EmitApart(id, s.events, m); }
    StillThere(s, PollWorker(s, i, reply).0, i, id);
  }

  lemma LastVisit(s: State, i: nat, reply: Reply, id: RequestId, m: Message)
    requires Core(s) && i < |s.workers| && OnlyAt(s, i, id) && i in s.active && s.workers[i] == Worker(Busy, Some(id))
    requires reply.read == Got(m) && m.requestId in {None, Some(id)} && Terminal(m.kind)
    ensures var t := PollWorker(s, i, reply).0;
      For(id, t.events) == For(id, s.events) + Report(i, id, reply.read) && Nowhere(t, id)
  {
    var u := EndOf(s, i, reply, m);
    if m.requestId == Some(id) { EmitOwn(id, s.events, m); } else { EmitApart(id, s.events, m); }
    FreedNowhere(s, u, i, id);
    PendingApart(u, reply.at, reply.broken, id);
    ApartNowhere(u, DispatchPending(u, reply.at, reply.broken).0, id);
  }

  // The state after the message that ended the request, before the next dispatch.
  lemma EndOf(s: State, i: nat, reply: Reply, m: Message) returns (u: State)
    requires Core(s) && i in s.active && i < |s.workers| && s.workers[i] == Worker(Busy, Some(s.active[i]))
    requires reply.read == Got(m) && m.requestId in {None, Some(s.active[i])} && Terminal(m.kind)
    ensures Core(u) && u.active == s.active - {i} && u.pending == s.pending && u.events == s.events + [m]
    ensures PollWorker(s, i, reply) == DispatchPending(u, reply.at, reply.broken)
  {
    var w := Worker(WorkerState.Ready, None);
    u := Finish(s, i, w, m);
    FinishKeeps(s, i, w, m);
  }

  /* ---- The loop ---- */

  // From worker `a` on nobody runs `id`, and it does not wait.
  ghost predicate Behind(s: State, a: nat, id: RequestId) {
    NotQueued(s, id) && forall w: nat :: Runs(s, w, id) ==> w < a
  }

  lemma {:induction false} LoopBehind(s: State, a: nat, replies: seq<Reply>, id: RequestId)
    requires Core(s) && a <= |s.workers| <= |replies| && Behind(s, a, id)
    ensures var r := PollFrom(s, a, replies).0; For(id, r.events) == For(id, s.events) && NotQueued(r, id)
    decreases |s.workers| - a
  {
    if a < |s.workers| {
      var t, raised := OtherFirst(s, a, replies, id);
      if !raised { LoopBehind(t, a + 1, replies, id); }
    }
  }

  // The loop's first visit, to a worker that does not run `id`.
  lemma OtherFirst(s: State, a: nat, replies: seq<Reply>, id: RequestId) returns (t: State, raised: bool)
    requires Core(s) && a < |s.workers| <= |replies| && NotQueued(s, id) && !Runs(s, a, id)
    ensures Core(t) && Apart(s, t, id) && |t.workers| == |s.workers|
    ensures PollFrom(s, a, replies) == if raised then (t, true) else PollFrom(t, a + 1, replies)
  {
    t, raised := PollWorker(s, a, replies[a]).0, PollWorker(s, a, replies[a]).1;
    PollWorkerKeeps(s, a, replies[a]);
    OtherVisitApart(s, a, replies[a], id);
  }

  lemma OwnFirst(s: State, i: nat, replies: seq<Reply>, id: RequestId) returns (t: State, raised: bool)
    requires Core(s) && i < |s.workers| <= |replies| && OnlyAt(s, i, id)
    ensures Core(t) && |t.workers| == |s.workers| && Behind(t, i + 1, id)
    ensures For(id, t.events) == For(id, s.events) + Report(i, id, replies[i].read)
    ensures PollFrom(s, i, replies) == if raised then (t, true) else PollFrom(t, i + 1, replies)
  {
    t, raised := PollWorker(s, i, replies[i]).0, PollWorker(s, i, replies[i]).1;
    PollWorkerKeeps(s, i, replies[i]);
    OwnVisit(s, i, replies[i], id);
  }

  lemma {:induction false} LoopReports(s: State, a: nat, i: nat, replies: seq<Reply>, id: RequestId)
    requires Core(s) && a <= i < |s.workers| <= |replies| && OnlyAt(s, i, id)
    ensures var (r, raised) := PollFrom(s, a, replies);
      !raised ==> For(id, r.events) == For(id, s.events) + Report(i, id, replies[i].read) && NotQueued(r, id)
    decreases i - a, 1
  {
    if a == i { OwnThenOthers(s, i, replies, id); } else { OtherThenOwn(s, a, i, replies, id); }
  }

  lemma OwnThenOthers(s: State, i: nat, replies: seq<Reply>, id: RequestId)
    requires Core(s) && i < |s.workers| <= |replies| && OnlyAt(s, i, id)
    ensures var (r, raised) := PollFrom(s, i, replies);
      !raised ==> For(id, r.events) == For(id, s.events) + Report(i, id, replies[i].read) && NotQueued(r, id)
  {
    var t, raised := OwnFirst(s, i, replies, id);
    if !raised { LoopBehind(t, i + 1, replies, id); }
  }

  lemma {:induction false} OtherThenOwn(s: State, a: nat, i: nat, replies: seq<Reply>, id: RequestId)
    requires Core(s) && a < i < |s.workers| <= |replies| && OnlyAt(s, i, id)
    ensures var (r, raised) := PollFrom(s, a, replies);
      !raised ==> For(id, r.events) == For(id, s.events) + Report(i, id, replies[i].read) && NotQueued(r, id)
    decreases i - a, 0
  {
    var t, raised := OtherBeforeOwn(s, a, i, replies, id);
    if !raised { LoopReports(t, a + 1, i, replies, id); }
  }

  lemma OtherBeforeOwn(s: State, a: nat, i: nat, replies: seq<Reply>, id: RequestId) returns (t: State, raised: bool)
    requires Core(s) && a < i < |s.workers| <= |replies| && OnlyAt(s, i, id)
    ensures Core(t) && OnlyAt(t, i, id) && For(id, t.events) == For(id, s.events) && |t.workers| == |s.workers|
    ensures PollFrom(s, a, replies) == if raised then (t, true) else PollFrom(t, a + 1, replies)
  {
    assert Runs(s, a, id) <==> a == i;
    t, raised := OtherFirst(s, a, replies, id);
    forall w: nat ensures Runs(t, w, id) <==> w == i {
      assert Runs(s, w, id) <==> w == i;
    }
  }

  /* ---- The poll ---- */

  lemma {:induction false} QuietHeads(s: State, now: real, timeout: real)
    ensures |ExpireHeads(s, now, timeout).events| >= |s.events|
    ensures |ExpireHeads(s, now, timeout).events| == |s.events| ==> ExpireHeads(s, now, timeout) == s
    decreases |s.pending|
  {
    if s.pending != [] && Overdue(s.pending[0], now, timeout) {
      QuietHeads(RetireHead(s, Failure(FromScheduler, s.pending[0].request.id, QueueTimeout)), now, timeout);
    }
  }

  lemma {:induction false} QuietFailing(s: State)
    ensures |FailHeads(s).events| >= |s.events|
    ensures |FailHeads(s).events| == |s.events| ==> FailHeads(s) == s
    decreases |s.pending|
  {
    if s.pending != [] { QuietFailing(RetireHead(s, Failure(FromScheduler, s.pending[0].request.id, NoHealthyWorker))); }
  }

  lemma {:induction false} QuietWorkers(s: State, i: nat, now: real, timeout: real)
    requires i <= |s.workers|
    ensures |ExpireActiveFrom(s, i, now, timeout).events| >= |s.events|
    ensures |ExpireActiveFrom(s, i, now, timeout).events| == |s.events| ==> ExpireActiveFrom(s, i, now, timeout) == s
    decreases |s.workers| - i
  {
    if i < |s.workers| { QuietWorkers(ExpireWorker(s, i, now, timeout), i + 1, now, timeout); }
  }

  // The loop runs only if nothing expired.
  lemma LoopsUnchanged(s: State, now: real)
    requires Loops(s, now)
    ensures Expire(s, now) == s && s.events == []
  {
    var t := ExpireActive(s, now);
    if s.config.maxInference.Some? {
      QuietWorkers(s, 0, now, s.config.maxInference.value);
      QuietFailing(ExpireActiveFrom(s, 0, now, s.config.maxInference.value));
    }
    if s.config.queueTimeout.Some? { QuietHeads(t, now, s.config.queueTimeout.value); }
  }

  lemma RunningOnlyThere(s: State, i: nat)
    requires Core(s) && i in s.active
    ensures OnlyAt(s, i, s.active[i])
  {
    var id := s.active[i];
    assert s.workers[i] == Worker(Busy, Some(id)) && Accounted(s, id) <= 1;
    OneRunning(s.workers, i, id);
    forall k | 0 <= k < |s.pending| ensures s.pending[k].request.id != id {
      if s.pending[k].request.id == id { QueuedOnce(s.pending, k); }
    }
    forall w: nat ensures Runs(s, w, id) <==> w == i {
      if Runs(s, w, id) && w != i { TwoRunning(s.workers, i, w, id); }
    }
  }

  lemma {:induction false} QueuedOnce(pending: seq<Pending>, k: nat)
    requires k < |pending|
    ensures InQueue(pending, pending[k].request.id) > 0
  {
    if k > 0 { QueuedOnce(pending[1..], k - 1); }
  }

  /** A poll that gets to its workers and does not raise reports of a request that was running exactly what its worker's
      read calls for, once: nothing while the worker is alive and silent, `worker_exited` when it died, a transport
      failure when its queue cannot be read, an invalid message for a foreign object, a mismatch for a message that names
      another request, and otherwise the message itself. */
  lemma PollReports(s: State, now: real, replies: seq<Reply>, i: nat)
    requires Core(s) && |s.workers| <= |replies| && i in s.active && i < |s.workers|
    requires Loops(s, now) && Poll(s, now, replies).1.Events?
    ensures For(s.active[i], Poll(s, now, replies).1.events) == Report(i, s.active[i], replies[i].read)
  {
    var id := s.active[i];
    LoopsUnchanged(s, now);
    RunningOnlyThere(s, i);
    LoopReports(s, 0, i, replies, id);
    FailingApart(PollFrom(s, 0, replies).0, id);
  }
}
