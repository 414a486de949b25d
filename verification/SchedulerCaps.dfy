/** A concurrency cap below the number of workers breaks what holds without one: requests wait beside ready workers, and
    later requests overtake them, unless the queue timeout is zero and none that waits is served. */
module SchedulerCaps {
  import opened Messages
  import opened WorkerModel
  import opened SchedulerSpec
  import opened SchedulerInvariants
  import opened SchedulerProgress
  import opened SchedulerRuns
  import opened SchedulerOrder
  import opened SchedulerService

  function UpTo(k: nat): (r: seq<RequestId>)
    ensures |r| == k && forall i :: 0 <= i < k ==> r[i] == i
  {
    seq(k, i requires 0 <= i < k => i)
  }

  // The first `k` workers run the requests below `k`, sent at time 0, and the others are ready.
  ghost predicate SentTo(ws: seq<Worker>, active: map<nat, RequestId>, started: map<nat, real>, k: nat) {
    && k <= |ws| && |active| == k
    && (forall i :: 0 <= i < k ==> ws[i] == Worker(Busy, Some(i)))
    && (forall i :: k <= i < |ws| ==> ws[i].state.Ready?)
    && (forall i: nat :: i in active <==> i < k) && (forall i: nat :: i < k ==> active[i] == i)
    && (forall i: nat :: i in started ==> started[i] == 0.0)
  }

  // `s` is `s0` after its first `k` workers were sent a request.
  ghost predicate Filled(s0: State, s: State, k: nat) {
    && SentTo(s.workers, s.active, s.started, k)
    && |s.workers| == |s0.workers| && s.config == s0.config
    && s.pending == [] && s.events == [] && !s.closed
    && (forall id :: id in s.submitted ==> id < k)
    && s.log.admitted == UpTo(k) && s.log.dispatched == UpTo(k)
  }

  // A run from `s` in which the clock, past `start`, does not go backwards.
  predicate OnForwardClock(s: State, ops: seq<Op>, start: real) {
    AllFit(ops, |s.workers|) && Forward(ops, start)
  }

  // Every reading of the clock is 0.
  predicate AtZero(ops: seq<Op>) {
    forall k :: 0 <= k < |ops| ==>
      (ops[k].SubmitOp? ==> ops[k].now == 0.0)
      && (ops[k].PollOp? ==> ops[k].now == 0.0 && forall j :: 0 <= j < |ops[k].replies| ==> ops[k].replies[j].at == 0.0)
  }

  lemma {:induction false} ZeroIsForward(ops: seq<Op>)
    requires AtZero(ops)
    ensures Forward(ops, 0.0)
  {
    if ops != [] {
      if ops[0].PollOp? { ZeroAscends(ops[0].replies); }
      ZeroIsForward(ops[1..]);
    }
  }

  lemma {:induction false} ZeroAscends(replies: seq<Reply>)
    requires forall j :: 0 <= j < |replies| ==> replies[j].at == 0.0
    ensures Ascending(replies, 0.0) && LastReading(replies, 0.0) == 0.0
  {
    if replies != [] { ZeroAscends(replies[1..]); }
  }

  // Sending request `k` to worker `k`.
  lemma SentNext(s0: State, s: State, k: nat)
    requires Filled(s0, s, k) && k < |s0.workers|
    ensures Filled(s0, Assign(Admit(s, k), k, k, 0.0), k + 1)
  {
    SentToNext(s.workers, s.active, s.started, k);
    assert UpTo(k) + [k] == UpTo(k + 1);
  }

  lemma SentToNext(ws: seq<Worker>, active: map<nat, RequestId>, started: map<nat, real>, k: nat)
    requires SentTo(ws, active, started, k) && k < |ws|
    ensures SentTo(ws[k := Worker(Busy, Some(k))], active[k := k], started[k := 0.0], k + 1)
  {
    assert active[k := k].Keys == active.Keys + {k};
  }

  lemma SubmitNext(s0: State, s: State, k: nat) returns (ops: seq<Op>)
    requires Filled(s0, s, k) && k < |s0.workers| && BelowCap(s)
    ensures AtZero(ops) && AllFit(ops, |s0.workers|) && Filled(s0, Run(s, ops), k + 1)
  {
    ops := [SubmitOp(Request(k, false, 0), 0.0, {})];
    assert s.workers[k].state.Ready?;
    assert FirstReady(s.workers) == k;
    SentNext(s0, s, k);
    RunOne(s, ops[0]);
  }

  lemma {:induction false} FillUp(s0: State, k: nat) returns (ops: seq<Op>)
    requires Init(s0) && k <= |s0.workers|
    requires s0.config.maxConcurrent.Some? ==> k <= s0.config.maxConcurrent.value
    ensures AtZero(ops) && AllFit(ops, |s0.workers|) && Filled(s0, Run(s0, ops), k)
  {
    ops := [];
    if k > 0 {
      var before := FillUp(s0, k - 1);
      var last := SubmitNext(s0, Run(s0, before), k - 1);
      RunConcat(s0, before, last);
      ops := before + last;
    }
  }

  // The constructor refuses other timeouts.
  predicate Constructible(config: Config) {
    && (config.queueTimeout.Some? ==> config.queueTimeout.value >= 0.0)
    && (config.maxInference.Some? ==> config.maxInference.value > 0.0)
  }

  // The cap, of a scheduler that has a binding one.
  function Cap(s: State): nat
    requires !Uncapped(s)
  {
    s.config.maxConcurrent.value
  }

  // At the cap, with one request waiting although worker `Cap(s0)` is ready.
  ghost predicate Crowded(s0: State, s: State)
    requires !Uncapped(s0)
  {
    var c := Cap(s0);
    && 0 < c < |s0.workers| && s.pending == [Pending(Request(c, false, 0), 0.0)]
    && s.log.admitted == UpTo(c) + [c] && (forall id :: id in s.submitted ==> id <= c)
    && Filled(s0, s.(pending := [], submitted := s.submitted - {c}, log := s.log.(admitted := UpTo(c))), c)
  }

  lemma QueuedNext(s0: State, s: State) returns (ops: seq<Op>)
    requires Init(s0) && !Uncapped(s0) && Filled(s0, s, Cap(s0)) && Cap(s0) < |s0.workers|
    ensures AtZero(ops) && AllFit(ops, |s0.workers|) && Crowded(s0, Run(s, ops))
  {
    var c := Cap(s0);
    ops := [SubmitOp(Request(c, false, 0), 0.0, {})];
    RunOne(s, ops[0]);
    assert Healthy(s.workers[c]);
    assert c !in s.submitted;
    var r := Submit(s, Request(c, false, 0), 0.0, {}).0;
    assert r.submitted - {c} == s.submitted;
  }

  lemma Crowd(s0: State) returns (ops: seq<Op>)
    requires Init(s0) && !Uncapped(s0)
    ensures AtZero(ops) && AllFit(ops, |s0.workers|) && Crowded(s0, Run(s0, ops))
  {
    var before := FillUp(s0, Cap(s0));
    var last := QueuedNext(s0, Run(s0, before));
    RunConcat(s0, before, last);
    ops := before + last;
  }

  lemma CapIdles(s: State) returns (ops: seq<Op>)
    requires Init(s) && !Uncapped(s)
    ensures OnForwardClock(s, ops, 0.0) && !NoIdle(Run(s, ops))
  {
    ops := Crowd(s);
    ZeroIsForward(ops);
    CrowdedIdles(s, Run(s, ops));
  }

  lemma CrowdedIdles(s0: State, s: State)
    requires !Uncapped(s0) && Crowded(s0, s)
    ensures !NoIdle(s)
  {
    assert s.workers[Cap(s0)].state.Ready?;
  }

  /** Nothing idles in any run on a forward clock exactly when the cap does not bind. */
  lemma NoIdlingIffUncapped(s: State)
    requires Init(s)
    ensures Uncapped(s) <==> forall ops: seq<Op>, start: real :: OnForwardClock(s, ops, start) ==> NoIdle(Run(s, ops))
  {
    InitInv(s);
    if Uncapped(s) {
      forall ops: seq<Op>, start: real | OnForwardClock(s, ops, start) ensures NoIdle(Run(s, ops)) {
        NeverIdle(s, ops);
      }
    } else {
      var ops := CapIdles(s);
    }
  }

  /* ---- Overtaking ---- */

  // Worker 0 was stopped, those up to `k` run a request since time 0, and `k` is `w`; the others are ready.
  ghost predicate Stopped0(ws: seq<Worker>, active: map<nat, RequestId>, started: map<nat, real>, k: nat, w: Worker) {
    && 0 < k < |ws| && ws[0] == Worker(Stopped, None) && ws[k] == w
    && (forall i :: 1 <= i < k ==> ws[i] == Worker(Busy, Some(i)))
    && (forall i :: k < i < |ws| ==> ws[i].state.Ready?)
    && (forall i: nat :: 1 <= i < k ==> i in active && active[i] == i)
    && (forall i: nat :: i in active && i != k ==> 1 <= i < k)
    && (w.state.Busy? <==> k in active) && (w.state.Busy? ==> w == Worker(Busy, Some(active[k])))
    && |active| == (if w.state.Busy? then k else k - 1)
    && (forall i: nat :: i in started ==> started[i] == 0.0)
  }

  // Request `c` waits, request 0 was cancelled, and worker `c` is `w`.
  ghost predicate Freed(s0: State, s: State, w: Worker)
    requires !Uncapped(s0)
  {
    && |s.workers| == |s0.workers| && s.config == s0.config && !s.closed && s.events == []
    && s.pending == [Pending(Request(Cap(s0), false, 0), 0.0)]
    && Stopped0(s.workers, s.active, s.started, Cap(s0), w)
  }

  lemma StopFirst(ws: seq<Worker>, active: map<nat, RequestId>, started: map<nat, real>, k: nat)
    requires SentTo(ws, active, started, k) && 0 < k < |ws|
    ensures Stopped0(ws[0 := Worker(Stopped, None)], active - {0}, started - {0}, k, ws[k])
  {
    var left := active - {0};
    assert left.Keys == active.Keys - {0} && |left| == k - 1;
    assert forall i: nat :: i in left ==> i in active && i != 0;
    assert forall i :: 1 <= i < k ==> ws[0 := Worker(Stopped, None)][i] == ws[i];
  }

  lemma CancelFirst(s0: State, s: State) returns (ops: seq<Op>)
    requires !Uncapped(s0) && Crowded(s0, s)
    ensures AtZero(ops) && AllFit(ops, |s0.workers|)
    ensures var r := Run(s, ops);
      && Freed(s0, r, s.workers[Cap(s0)]) && s.workers[Cap(s0)].state.Ready?
      && r.log.admitted == s.log.admitted && r.log.dispatched == s.log.dispatched && r.submitted == s.submitted
  {
    ops := [CancelOp(0)];
    RunOne(s, ops[0]);
    assert IndexOf(s.pending, 0) == 1 && HolderFrom(s, 0, 0) == 0;
    StopFirst(s.workers, s.active, s.started, Cap(s0));
    var t := Record(Release(s, 0, Worker(Stopped, None)), Message(Cancelled, FromWorker(0), Some(0), StageActive, 0));
    assert Healthy(t.workers[Cap(s0)]);
    assert Cancel(s, 0).0 == t;
  }

  lemma Reuse(ws: seq<Worker>, active: map<nat, RequestId>, started: map<nat, real>, k: nat, w: Worker, id: RequestId)
    requires Stopped0(ws, active, started, k, w) && w.state.Ready?
    ensures Stopped0(ws[k := Worker(Busy, Some(id))], active[k := id], started[k := 0.0], k, Worker(Busy, Some(id)))
    ensures FirstReady(ws) == k
  {
    assert active[k := id].Keys == active.Keys + {k};
    FirstIs(ws, k);
  }

  lemma FirstIs(ws: seq<Worker>, k: nat)
    requires k < |ws| && ws[k].state.Ready? && forall i :: 0 <= i < k ==> !ws[i].state.Ready?
    ensures FirstReady(ws) == k
  {
  }

  // The new request goes straight to the ready worker, past the one that waits.
  lemma Overtake(s0: State, s: State, w: Worker) returns (ops: seq<Op>)
    requires !Uncapped(s0) && Freed(s0, s, w) && w.state.Ready? && Cap(s0) + 1 !in s.submitted
    ensures AtZero(ops) && AllFit(ops, |s0.workers|) && Freed(s0, Run(s, ops), Worker(Busy, Some(Cap(s0) + 1)))
    ensures var r := Run(s, ops);
      r.log.admitted == s.log.admitted + [Cap(s0) + 1] && r.log.dispatched == s.log.dispatched + [Cap(s0) + 1]
  {
    ops := [SubmitOp(Request(Cap(s0) + 1, false, 0), 0.0, {})];
    RunOne(s, ops[0]);
    Reuse(s.workers, s.active, s.started, Cap(s0), w, Cap(s0) + 1);
  }

  /* ---- The waiting request is served after it ---- */

  lemma {:induction false} NoneOverdue(s: State, i: nat, now: real, timeout: real)
    requires i <= |s.workers| && now < timeout && forall k: nat :: k in s.started ==> s.started[k] == 0.0
    ensures ExpireActiveFrom(s, i, now, timeout) == s
    decreases |s.workers| - i
  {
    if i < |s.workers| { NoneOverdue(s, i + 1, now, timeout); }
  }

  // Timeouts that do not pass at once.
  predicate Lasting(config: Config) {
    && (config.queueTimeout.Some? ==> config.queueTimeout.value > 0.0)
    && (config.maxInference.Some? ==> config.maxInference.value > 0.0)
  }

  // Some worker is healthy, nothing is overdue: the first part of a poll does nothing.
  lemma NothingExpires(s: State, i: nat)
    requires Lasting(s.config) && i < |s.workers| && Healthy(s.workers[i]) && forall k: nat :: k in s.started ==> s.started[k] == 0.0
    requires s.pending != [] ==> s.pending[0].enqueuedAt == 0.0
    ensures Expire(s, 0.0) == s && ExpirePending(s, 0.0) == s
  {
    if s.config.maxInference.Some? { NoneOverdue(s, 0, 0.0, s.config.maxInference.value); }
  }

  // Worker `c` answers with `m`; the other workers say nothing.
  function OneAnswers(n: nat, c: nat, m: Message, now: real): (r: seq<Reply>)
    ensures |r| == n && forall k :: 0 <= k < n ==> r[k].at == now
  {
    seq(n, i requires 0 <= i < n => Reply(if i == c then Got(m) else Nothing(true), now, {}))
  }

  lemma {:induction false} SilentVisits(s: State, i: nat, j: nat, replies: seq<Reply>)
    requires i <= j <= |s.workers| <= |replies|
    requires forall k: nat :: k in s.active ==> k < |s.workers| && s.workers[k].state.Busy?
    requires forall k :: i <= k < j ==> replies[k].read == Nothing(true)
    ensures PollFrom(s, i, replies) == PollFrom(s, j, replies)
    decreases j - i
  {
    if i < j {
      assert PollWorker(s, i, replies[i]) == (s, false);
      SilentVisits(s, i + 1, j, replies);
    }
  }

  // The end of the overtaking request.
  function Done(c: nat): Message {
    Message(Kind.Result, FromWorker(c), Some(c + 1), Plain, 0)
  }

  lemma EndFrees(ws: seq<Worker>, active: map<nat, RequestId>, started: map<nat, real>, k: nat, w: Worker)
    requires Stopped0(ws, active, started, k, w) && w.state.Busy?
    ensures Stopped0(ws[k := Worker(WorkerState.Ready, None)], active - {k}, started - {k}, k, Worker(WorkerState.Ready, None))
  {
    assert (active - {k}).Keys == active.Keys - {k};
  }

  // The visit that ends the overtaking request and serves the waiting one.
  lemma ServingVisit(s0: State, s: State, t: State)
    requires Lasting(s0.config) && !Uncapped(s0) && Freed(s0, s, Worker(Busy, Some(Cap(s0) + 1)))
    requires t == AssignHead(Finish(s, Cap(s0), Worker(WorkerState.Ready, None), Done(Cap(s0))), Cap(s0), 0.0)
    ensures PollWorker(s, Cap(s0), Reply(Got(Done(Cap(s0))), 0.0, {})) == (t, false)
    ensures forall k: nat :: k in t.active ==> k < |t.workers| && t.workers[k].state.Busy?
    ensures t.pending == [] && t.log.dispatched == s.log.dispatched + [Cap(s0)] && t.log.admitted == s.log.admitted
  {
    var c, w := Cap(s0), Worker(WorkerState.Ready, None);
    var u := Finish(s, c, w, Done(c));
    EndFrees(s.workers, s.active, s.started, c, s.workers[c]);
    Reuse(u.workers, u.active, u.started, c, w, c);
    assert Healthy(u.workers[c]);
    NothingExpires(u, c);
    assert DispatchLoop(u, 0.0, {}) == DispatchLoop(t, 0.0, {}) == (t, false);
  }

  lemma ServeWaiting(s0: State, s: State) returns (ops: seq<Op>)
    requires Lasting(s0.config) && !Uncapped(s0) && Freed(s0, s, Worker(Busy, Some(Cap(s0) + 1)))
    ensures AtZero(ops) && AllFit(ops, |s0.workers|)
    ensures var r := Run(s, ops);
      r.log.dispatched == s.log.dispatched + [Cap(s0)] && r.log.admitted == s.log.admitted
  {
    var c, now := Cap(s0), 0.0;
    var replies := OneAnswers(|s.workers|, c, Done(c), now);
    var t := AssignHead(Finish(s, c, Worker(WorkerState.Ready, None), Done(c)), c, now);
    assert Healthy(s.workers[c]);
    NothingExpires(s, c);
    ServingVisit(s0, s, t);
    ServingLoop(s, c, replies, t);
    ops := PollsTo(s, now, replies, t);
  }

  // The loop of the poll: the other visits change nothing.
  lemma ServingLoop(s: State, c: nat, replies: seq<Reply>, t: State)
    requires c < |s.workers| == |t.workers| == |replies| && PollWorker(s, c, replies[c]) == (t, false)
    requires forall k :: 0 <= k < |replies| && k != c ==> replies[k].read == Nothing(true)
    requires forall k: nat :: k in s.active ==> k < |s.workers| && s.workers[k].state.Busy?
    requires forall k: nat :: k in t.active ==> k < |t.workers| && t.workers[k].state.Busy?
    ensures PollFrom(s, 0, replies) == (t, false)
  {
    SilentVisits(s, 0, c, replies);
    SilentVisits(t, c + 1, |t.workers|, replies);
  }

  lemma PollsTo(s: State, now: real, replies: seq<Reply>, t: State) returns (ops: seq<Op>)
    requires now == 0.0 && forall k :: 0 <= k < |replies| ==> replies[k].at == 0.0
    requires s.events == [] && |replies| == |s.workers| && Expire(s, now) == s
    requires PollFrom(s, 0, replies) == (t, false) && t.pending == []
    ensures AtZero(ops) && AllFit(ops, |s.workers|)
    ensures Run(s, ops).log.dispatched == t.log.dispatched && Run(s, ops).log.admitted == t.log.admitted
  {
    ops := [PollOp(now, replies)];
    RunOne(s, ops[0]);
    assert FailPendingWithoutHealthy(t) == t;
  }

  // The four parts of the run.
  lemma OvertakingRun(s0: State) returns (ops: seq<Op>)
    requires Init(s0) && Lasting(s0.config) && !Uncapped(s0)
    ensures AllFit(ops, |s0.workers|) && AtZero(ops)
    ensures var c, log := Cap(s0), Run(s0, ops).log;
      log.dispatched == UpTo(c) + [c + 1] + [c] && log.admitted == UpTo(c) + [c] + [c + 1]
  {
    var first, w := FreeingRun(s0);
    var later := OvertakingEnd(s0, Run(s0, first), w);
    RunConcat(s0, first, later);
    ops := first + later;
  }

  lemma FreeingRun(s0: State) returns (ops: seq<Op>, w: Worker)
    requires Init(s0) && !Uncapped(s0)
    ensures AllFit(ops, |s0.workers|) && AtZero(ops)
    ensures var c, r := Cap(s0), Run(s0, ops);
      && Freed(s0, r, w) && w.state.Ready? && c + 1 !in r.submitted
      && r.log.dispatched == UpTo(c) && r.log.admitted == UpTo(c) + [c]
  {
    var crowd := Crowd(s0);
    var s1 := Run(s0, crowd);
    w := s1.workers[Cap(s0)];
    var cancel := CancelFirst(s0, s1);
    RunConcat(s0, crowd, cancel);
    ops := crowd + cancel;
  }

  lemma OvertakingEnd(s0: State, s: State, w: Worker) returns (ops: seq<Op>)
    requires Lasting(s0.config) && !Uncapped(s0) && Freed(s0, s, w) && w.state.Ready? && Cap(s0) + 1 !in s.submitted
    ensures AllFit(ops, |s0.workers|) && AtZero(ops)
    ensures var c, log := Cap(s0), Run(s, ops).log;
      log.dispatched == s.log.dispatched + [c + 1] + [c] && log.admitted == s.log.admitted + [c + 1]
  {
    var submit := Overtake(s0, s, w);
    var poll := ServeWaiting(s0, Run(s, submit));
    RunConcat(s, submit, poll);
    ops := submit + poll;
  }

  /** With a binding cap, and unless the queue timeout is zero, a request is served before one that was admitted
      earlier, in some run on a forward clock. */
  lemma CapOvertakes(s0: State) returns (ops: seq<Op>)
    requires Init(s0) && Constructible(s0.config) && !Uncapped(s0) && s0.config.queueTimeout != Some(0.0)
    ensures OnForwardClock(s0, ops, 0.0)
    ensures !Subseq(Run(s0, ops).log.dispatched, Run(s0, ops).log.admitted)
  {
    ops := OvertakingRun(s0);
    ZeroIsForward(ops);
    OutOfOrder(Cap(s0), Run(s0, ops).log);
  }

  lemma OutOfOrder(c: nat, log: Log)
    requires log.dispatched == UpTo(c) + [c + 1] + [c] && log.admitted == UpTo(c) + [c] + [c + 1]
    ensures !Subseq(log.dispatched, log.admitted)
  {
    if Subseq(log.dispatched, log.admitted) { SubseqLast(UpTo(c), c + 1, [c], UpTo(c) + [c]); }
  }

  /* ---- A zero queue timeout ---- */

  // No poll hands a queued request to a worker, as it retires all of them first.
  lemma {:induction false} EmptyQueueLoop(s: State, i: nat, replies: seq<Reply>)
    requires s.pending == [] && i <= |s.workers| <= |replies|
    ensures PollFrom(s, i, replies).0.log.dispatched == s.log.dispatched
    decreases |s.workers| - i
  {
    if i < |s.workers| {
      EmptyQueueVisit(s, i, replies[i]);
      EmptyQueueLoop(PollWorker(s, i, replies[i]).0, i + 1, replies);
    }
  }

  lemma EmptyQueueVisit(s: State, i: nat, reply: Reply)
    requires s.pending == [] && i < |s.workers|
    ensures var t := PollWorker(s, i, reply).0; t.pending == [] && t.log.dispatched == s.log.dispatched
  {
  }

  lemma {:induction false} RetiringKeepsDispatched(s: State, now: real, timeout: real)
    ensures ExpireHeads(s, now, timeout).log.dispatched == s.log.dispatched
    ensures FailHeads(s).log.dispatched == s.log.dispatched
    decreases |s.pending|
  {
    if s.pending != [] {
      RetiringKeepsDispatched(RetireHead(s, Failure(FromScheduler, s.pending[0].request.id, QueueTimeout)), now, timeout);
      RetiringKeepsDispatched(RetireHead(s, Failure(FromScheduler, s.pending[0].request.id, NoHealthyWorker)), now, timeout);
    }
  }

  lemma {:induction false} ExpiryKeepsDispatched(s: State, i: nat, now: real, timeout: real)
    requires i <= |s.workers|
    ensures ExpireActiveFrom(s, i, now, timeout).log.dispatched == s.log.dispatched
    decreases |s.workers| - i
  {
    if i < |s.workers| { ExpiryKeepsDispatched(ExpireWorker(s, i, now, timeout), i + 1, now, timeout); }
  }

  lemma {:induction false} NoneFresh(pending: seq<Pending>, now: real)
    requires forall k :: 0 <= k < |pending| ==> pending[k].enqueuedAt <= now
    ensures Fresh(pending, now, 0.0) == []
  {
    if pending != [] { NoneFresh(pending[1..], now); }
  }

  lemma ZeroTimeoutExpires(s: State, now: real)
    requires s.config.queueTimeout == Some(0.0) && Timed(s, now)
    ensures Expire(s, now).pending == [] && Expire(s, now).log.dispatched == s.log.dispatched
  {
    var t := ExpireActive(s, now);
    ActiveExpiryQueue(s, now);
    ExpireHeadsExact(t, now, 0.0);
    NoneFresh(t.pending, now);
    if s.config.maxInference.Some? {
      ExpiryKeepsDispatched(s, 0, now, s.config.maxInference.value);
      RetiringKeepsDispatched(ExpireActiveFrom(s, 0, now, s.config.maxInference.value), now, 0.0);
    }
    RetiringKeepsDispatched(t, now, 0.0);
  }

  lemma ZeroTimeoutPoll(s: State, now: real, replies: seq<Reply>)
    requires s.config.queueTimeout == Some(0.0) && Timed(s, now) && |s.workers| <= |replies|
    ensures Poll(s, now, replies).0.log.dispatched == s.log.dispatched
  {
    var s1 := Expire(s, now);
    ZeroTimeoutExpires(s, now);
    EmptyQueueLoop(s1, 0, replies);
    RetiringKeepsDispatched(PollFrom(s1, 0, replies).0, now, 0.0);
  }

  lemma {:induction false} ClosingKeepsDispatched(s: State, i: nat)
    requires i <= |s.workers|
    ensures CloseWorkersFrom(s, i).log.dispatched == s.log.dispatched
    decreases |s.workers| - i
  {
    if i < |s.workers| { ClosingKeepsDispatched(CloseWorker(s, i), i + 1); }
  }

  lemma {:induction false} CancellingKeepsDispatched(s: State)
    ensures CancelHeads(s).log.dispatched == s.log.dispatched
    decreases |s.pending|
  {
    if s.pending != [] {
      CancellingKeepsDispatched(RetireHead(s, Message(Cancelled, FromScheduler, Some(s.pending[0].request.id), StageShutdown, 0)));
    }
  }

  lemma CancelKeepsDispatched(s: State, id: RequestId)
    ensures Cancel(s, id).0.log.dispatched == s.log.dispatched
  {
    var i := HolderFrom(s, 0, id);
    if i < |s.workers| {
      var (w, cancelled) := CancelActive(s.workers[i]);
      var m := Message(Cancelled, FromWorker(i), cancelled, StageActive, 0);
      RetiringKeepsDispatched(Record(Release(s, i, w), m), 0.0, 0.0);
    }
  }

  // Only `submit` dispatches, and it dispatches what it admits.
  lemma ZeroTimeoutStep(s: State, op: Op, now: real)
    requires s.config.queueTimeout == Some(0.0) && Timed(s, now) && Fits(op, |s.workers|) && now <= Clock(op, now)
    requires Subseq(s.log.dispatched, s.log.admitted)
    ensures var r := Step(s, op); Subseq(r.log.dispatched, r.log.admitted)
  {
    match op
    case SubmitOp(request, at, broken) => SubmitDispatches(s, request, at, broken);
    case PollOp(at, replies) =>
      TimedLater(s, now, at);
      ZeroTimeoutPoll(s, at, replies);
      PollOrder(s, at, replies);
    case CancelOp(id) => CancelKeepsDispatched(s, id); CancelOrder(s, id);
    case CloseOp =>
      CancellingKeepsDispatched(s.(closed := true));
      ClosingKeepsDispatched(CancelHeads(s.(closed := true)), 0);
      CloseOrder(s);
  }

  lemma SubmitDispatches(s: State, request: Request, now: real, broken: set<nat>)
    requires Subseq(s.log.dispatched, s.log.admitted)
    ensures var r := Submit(s, request, now, broken).0; Subseq(r.log.dispatched, r.log.admitted)
  {
    SubseqAppend(s.log.dispatched, s.log.admitted, request.id);
    SubseqPrefix(s.log.admitted, [request.id]);
    SubseqTrans(s.log.dispatched, s.log.admitted, s.log.admitted + [request.id]);
  }

  lemma {:induction false} ZeroTimeoutRun(s: State, ops: seq<Op>, now: real)
    requires s.config.queueTimeout == Some(0.0) && Timed(s, now) && AllFit(ops, |s.workers|) && WellTimed(ops, now)
    requires Subseq(s.log.dispatched, s.log.admitted)
    ensures Subseq(Run(s, ops).log.dispatched, Run(s, ops).log.admitted)
    decreases |ops|
  {
    if ops != [] {
      ZeroTimeoutStep(s, ops[0], now);
      StepTimed(s, ops[0], now);
      ZeroTimeoutRun(Step(s, ops[0]), ops[1..], Clock(ops[0], now));
    }
  }

  /** With a zero queue timeout dispatch is first in, first out under every cap, as long as the clock does not run
      backwards: only a request that need not wait is ever served. */
  lemma ZeroTimeoutFifo(s: State, ops: seq<Op>, start: real)
    requires Init(s) && s.config.queueTimeout == Some(0.0) && OnForwardClock(s, ops, start)
    ensures Subseq(Run(s, ops).log.dispatched, Run(s, ops).log.admitted)
  {
    ForwardIsTimed(ops, start, start);
    ZeroTimeoutRun(s, ops, start);
  }

  lemma FifoRun(s: State, ops: seq<Op>, start: real)
    requires Init(s) && (Uncapped(s) || s.config.queueTimeout == Some(0.0)) && OnForwardClock(s, ops, start)
    ensures Subseq(Run(s, ops).log.dispatched, Run(s, ops).log.admitted)
  {
    if Uncapped(s) { ServiceIsFifo(s, ops); } else { ZeroTimeoutFifo(s, ops, start); }
  }

  /** Dispatch is first in, first out over all runs on a forward clock, direct dispatches included, exactly when the cap
      does not bind or the queue timeout is zero. */
  lemma ServiceFifoIff(s: State)
    requires Init(s) && Constructible(s.config)
    ensures Uncapped(s) || s.config.queueTimeout == Some(0.0) <==> forall ops: seq<Op>, start: real ::
      OnForwardClock(s, ops, start) ==> Subseq(Run(s, ops).log.dispatched, Run(s, ops).log.admitted)
  {
    if Uncapped(s) || s.config.queueTimeout == Some(0.0) {
      forall ops: seq<Op>, start: real | OnForwardClock(s, ops, start)
        ensures Subseq(Run(s, ops).log.dispatched, Run(s, ops).log.admitted)
      {
        FifoRun(s, ops, start);
      }
    } else {
      var ops := CapOvertakes(s);
    }
  }
}
