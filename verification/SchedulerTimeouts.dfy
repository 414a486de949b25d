/** How long a request may wait and run, in the readings of the clock at which the run's operations happened. */
module SchedulerTimeouts {
  import opened Messages
  import opened WorkerModel
  import opened SchedulerSpec
  import opened SchedulerInvariants
  import opened SchedulerProgress
  import opened SchedulerRuns
  import opened SchedulerLosses
  import opened SchedulerOrder
  import opened SchedulerReads

  type Times = map<RequestId, real>

  /* ---- When requests were admitted ---- */

  // The reading of each operation that had a new id submitted.
  function NoteAdmission(s: State, op: Op, m: Times): Times
    requires Fits(op, |s.workers|)
  {
    if op.SubmitOp? && op.request.id !in s.submitted && op.request.id in Step(s, op).submitted
    then m[op.request.id := op.now] else m
  }

  function AdmissionTimes(s: State, ops: seq<Op>, m: Times): Times
    requires AllFit(ops, |s.workers|)
    decreases |ops|
  {
    if ops == [] then m else AdmissionTimes(Step(s, ops[0]), ops[1..], NoteAdmission(s, ops[0], m))
  }

  // The queue is stamped with these readings.
  ghost predicate Stamps(pending: seq<Pending>, m: Times) {
    forall k :: 0 <= k < |pending| ==> pending[k].request.id in m && m[pending[k].request.id] == pending[k].enqueuedAt
  }

  lemma SuffixStamps(pending: seq<Pending>, rest: seq<Pending>, m: Times)
    requires Stamps(pending, m) && |rest| <= |pending| && rest == pending[|pending| - |rest|..]
    ensures Stamps(rest, m)
  {
  }

  lemma WaitingIsSubmitted(s: State, k: nat)
    requires Core(s) && k < |s.pending|
    ensures s.pending[k].request.id in s.submitted
  {
    var id := s.pending[k].request.id;
    assert Accounted(s, id) == if id in s.submitted then 1 else 0;
    QueuedOften(s.pending, k);
  }

  lemma {:induction false} QueuedOften(pending: seq<Pending>, k: nat)
    requires k < |pending|
    ensures InQueue(pending, pending[k].request.id) > 0
  {
    if k > 0 { QueuedOften(pending[1..], k - 1); }
  }

  lemma SubmitStamps(s: State, request: Request, now: real, broken: set<nat>, m: Times)
    requires Core(s) && Stamps(s.pending, m)
    ensures Stamps(Submit(s, request, now, broken).0.pending, NoteAdmission(s, SubmitOp(request, now, broken), m))
  {
    forall k | 0 <= k < |s.pending| ensures s.pending[k].request.id in s.submitted { WaitingIsSubmitted(s, k); }
    SubmitCases(s, request, now, broken);
  }

  lemma CancelStamps(s: State, id: RequestId, m: Times)
    requires Stamps(s.pending, m)
    ensures Stamps(Cancel(s, id).0.pending, m)
  {
    if IndexOf(s.pending, id) == |s.pending| {
      CancelActiveOrder(s, id);
      SuffixStamps(s.pending, Cancel(s, id).0.pending, m);
    }
  }

  lemma StepStamps(s: State, op: Op, m: Times)
    requires Core(s) && Fits(op, |s.workers|) && Stamps(s.pending, m)
    ensures Stamps(Step(s, op).pending, NoteAdmission(s, op, m))
  {
    match op
    case SubmitOp(request, now, broken) => SubmitStamps(s, request, now, broken, m);
    case PollOp(now, replies) => PollOrder(s, now, replies); SuffixStamps(s.pending, Step(s, op).pending, m);
    case CancelOp(id) => CancelStamps(s, id, m);
    case CloseOp => CloseOrder(s); SuffixStamps(s.pending, Step(s, op).pending, m);
  }

  lemma {:induction false} RunKeepsStamps(s: State, ops: seq<Op>, m: Times)
    requires Inv(s) && AllFit(ops, |s.workers|) && Stamps(s.pending, m)
    ensures Stamps(Run(s, ops).pending, AdmissionTimes(s, ops, m))
    decreases |ops|
  {
    if ops != [] {
      StepStamps(s, ops[0], m);
      StepKeeps(s, ops[0]);
      RunKeepsStamps(Step(s, ops[0]), ops[1..], NoteAdmission(s, ops[0], m));
    }
  }

  /* ---- How long a request may wait ---- */

  lemma {:induction false} HeadsLeaveRecent(s: State, now: real, timeout: real)
    requires Timed(s, now)
    ensures forall k :: 0 <= k < |ExpireHeads(s, now, timeout).pending| ==>
      now - ExpireHeads(s, now, timeout).pending[k].enqueuedAt < timeout
    decreases |s.pending|
  {
    if s.pending != [] && Overdue(s.pending[0], now, timeout) {
      HeadsLeaveRecent(RetireHead(s, Failure(FromScheduler, s.pending[0].request.id, QueueTimeout)), now, timeout);
    }
  }

  lemma ExpireLeavesRecent(s: State, now: real, timeout: real) returns (r: State)
    requires Timed(s, now) && s.config.queueTimeout == Some(timeout)
    ensures r == Expire(s, now) && forall k :: 0 <= k < |r.pending| ==> now - r.pending[k].enqueuedAt < timeout
  {
    r := Expire(s, now);
    ActiveExpiryQueue(s, now);
    HeadsLeaveRecent(ExpireActive(s, now), now, timeout);
  }

  // What a poll leaves in the queue was left by its expiry.
  lemma PollKeepsSuffix(s: State, now: real, replies: seq<Reply>)
    requires |s.workers| <= |replies|
    ensures var p, e := Poll(s, now, replies).0.pending, Expire(s, now).pending;
      |p| <= |e| && p == e[|e| - |p|..]
  {
    var t := Expire(s, now);
    if t.events == [] {
      OrderSame(t, t);
      LoopOrder(t, t, replies);
    }
  }

  /** After any run on a forward clock and a poll at the reading `now`, every request that is still queued was submitted
      less than the queue timeout before. */
  lemma WaitIsBounded(s: State, ops: seq<Op>, start: real, now: real, replies: seq<Reply>, timeout: real)
    requires Init(s) && s.config.queueTimeout == Some(timeout) && |s.workers| <= |replies|
    requires AllFit(ops, |s.workers|) && WellTimed(ops, start) && LastClock(ops, start) <= now
    ensures var r, m := Poll(Run(s, ops), now, replies).0, AdmissionTimes(s, ops, map[]);
      forall k :: 0 <= k < |r.pending| ==> r.pending[k].request.id in m && now - m[r.pending[k].request.id] < timeout
  {
    var t, m := Run(s, ops), AdmissionTimes(s, ops, map[]);
    InitInv(s);
    RunKeepsStamps(s, ops, map[]);
    RunTimed(s, ops, start);
    TimedLater(t, LastClock(ops, start), now);
    var e := ExpireLeavesRecent(t, now, timeout);
    PollKeepsSuffix(t, now, replies);
    PollOrder(t, now, replies);
    SuffixStamps(t.pending, Poll(t, now, replies).0.pending, m);
  }

  /* ---- Timeouts of waiting requests are due ---- */

  predicate Due(m: Times, id: RequestId, at: real, timeout: real) {
    id in m && at - m[id] >= timeout
  }

  // Report `k` was added between the two states.
  predicate New(s: State, r: State, k: nat) {
    |s.log.reports| <= k < |r.log.reports|
  }

  // A timeout of the kind `code`: of a request that waited, or of one that ran.
  predicate TimedOutReport(code: Code, m: Message) {
    code in {QueueTimeout, InferenceTimeout} && m.note == Fault(code)
  }

  // `m` holds the readings from which the timeouts of that kind count for what the scheduler can retire by itself.
  ghost predicate Counts(code: Code, s: State, m: Times, timeout: real) {
    code.QueueTimeout? ==> Stamps(s.pending, m) && s.config.queueTimeout == Some(timeout)
  }

  // Each such report added between the two states is due, unless it is what was read.
  ghost predicate OnlyDue(code: Code, s: State, r: State, m: Times, at: real, timeout: real, read: Option<Message>) {
    && s.log.reports <= r.log.reports
    && forall k: nat :: New(s, r, k) && TimedOutReport(code, r.log.reports[k]) && Some(r.log.reports[k]) != read ==>
         r.log.reports[k].requestId.Some? && Due(m, r.log.reports[k].requestId.value, at, timeout)
  }

  lemma DueTrans(code: Code, s: State, t: State, r: State, m: Times, at: real, timeout: real, read: Option<Message>)
    requires OnlyDue(code, s, t, m, at, timeout, read) && OnlyDue(code, t, r, m, at, timeout, read)
    ensures OnlyDue(code, s, r, m, at, timeout, read)
  {
    forall k: nat | New(s, r, k) && TimedOutReport(code, r.log.reports[k]) && Some(r.log.reports[k]) != read
      ensures r.log.reports[k].requestId.Some? && Due(m, r.log.reports[k].requestId.value, at, timeout)
    {
      assert New(s, t, k) || New(t, r, k);
    }
  }

  lemma {:induction false} HeadsDue(code: Code, s: State, now: real, limit: real, m: Times, timeout: real, read: Option<Message>)
    requires code.QueueTimeout? ==> Stamps(s.pending, m) && limit == timeout
    ensures OnlyDue(code, s, ExpireHeads(s, now, limit), m, now, timeout, read)
    decreases |s.pending|
  {
    if s.pending != [] && Overdue(s.pending[0], now, limit) {
      var t := HeadDue(code, s, now, limit, m, timeout, read);
      HeadsDue(code, t, now, limit, m, timeout, read);
      DueTrans(code, s, t, ExpireHeads(s, now, limit), m, now, timeout, read);
    }
  }

  lemma HeadDue(code: Code, s: State, now: real, limit: real, m: Times, timeout: real, read: Option<Message>) returns (t: State)
    requires code.QueueTimeout? ==> Stamps(s.pending, m) && limit == timeout
    requires s.pending != [] && Overdue(s.pending[0], now, limit)
    ensures t == RetireHead(s, Failure(FromScheduler, s.pending[0].request.id, QueueTimeout))
    ensures OnlyDue(code, s, t, m, now, timeout, read) && (code.QueueTimeout? ==> Stamps(t.pending, m))
  {
    t := RetireHead(s, Failure(FromScheduler, s.pending[0].request.id, QueueTimeout));
    assert code.QueueTimeout? ==> Due(m, s.pending[0].request.id, now, timeout);
  }

  lemma PendingDue(code: Code, s: State, now: real, m: Times, timeout: real, read: Option<Message>)
    requires Counts(code, s, m, timeout)
    ensures OnlyDue(code, s, ExpirePending(s, now), m, now, timeout, read)
  {
    if s.config.queueTimeout.Some? { HeadsDue(code, s, now, s.config.queueTimeout.value, m, timeout, read); }
  }

  lemma {:induction false} FailingDue(code: Code, s: State, m: Times, at: real, timeout: real, read: Option<Message>)
    ensures OnlyDue(code, s, FailHeads(s), m, at, timeout, read)
    decreases |s.pending|
  {
    if s.pending != [] {
      var t := RetireHead(s, Failure(FromScheduler, s.pending[0].request.id, NoHealthyWorker));
      FailingDue(code, t, m, at, timeout, read);
      DueTrans(code, s, t, FailHeads(s), m, at, timeout, read);
    }
  }

  lemma {:induction false} WorkersDue(code: Code, s: State, i: nat, now: real, limit: real, m: Times, timeout: real)
    requires i <= |s.workers| && (code.InferenceTimeout? ==> Started(s, m) && limit == timeout)
    ensures OnlyDue(code, s, ExpireActiveFrom(s, i, now, limit), m, now, timeout, None)
    decreases |s.workers| - i
  {
    if i < |s.workers| {
      var t := ExpireWorker(s, i, now, limit);
      WorkerDue(code, s, i, now, limit, m, timeout);
      WorkersDue(code, t, i + 1, now, limit, m, timeout);
      DueTrans(code, s, t, ExpireActiveFrom(s, i, now, limit), m, now, timeout, None);
    }
  }

  lemma WorkerDue(code: Code, s: State, i: nat, now: real, limit: real, m: Times, timeout: real)
    requires i < |s.workers| && (code.InferenceTimeout? ==> Started(s, m) && limit == timeout)
    ensures var t := ExpireWorker(s, i, now, limit);
      OnlyDue(code, s, t, m, now, timeout, None) && (Started(s, m) ==> Started(t, m))
  {
  }

  lemma ExpireDue(code: Code, s: State, now: real, m: Times, timeout: real)
    requires Counts(code, s, m, timeout)
    requires code.InferenceTimeout? ==> Started(s, m) && s.config.maxInference == Some(timeout)
    ensures OnlyDue(code, s, Expire(s, now), m, now, timeout, None) && Counts(code, Expire(s, now), m, timeout)
  {
    var t := ExpireActive(s, now);
    ExpireActiveDue(code, s, now, m, timeout);
    ActiveExpiryQueue(s, now);
    PendingDue(code, t, now, m, timeout, None);
    DueTrans(code, s, t, Expire(s, now), m, now, timeout, None);
    ExpirePendingProgress(t, now);
    if code.QueueTimeout? { SuffixStamps(t.pending, Expire(s, now).pending, m); }
  }

  lemma ExpireActiveDue(code: Code, s: State, now: real, m: Times, timeout: real)
    requires code.InferenceTimeout? ==> Started(s, m) && s.config.maxInference == Some(timeout)
    ensures OnlyDue(code, s, ExpireActive(s, now), m, now, timeout, None)
  {
    if s.config.maxInference.Some? {
      var u := ExpireActiveFrom(s, 0, now, s.config.maxInference.value);
      WorkersDue(code, s, 0, now, s.config.maxInference.value, m, timeout);
      FailingDue(code, u, m, now, timeout, None);
      DueTrans(code, s, u, FailHeads(u), m, now, timeout, None);
    }
  }

  lemma {:induction false} DispatchReportsNothing(s: State, now: real, broken: set<nat>)
    ensures DispatchLoop(s, now, broken).0.log.reports == s.log.reports
    decreases |s.pending|
  {
    var i := FirstReady(s.workers);
    if s.pending != [] && BelowCap(s) && i < |s.workers| && i !in broken {
      DispatchReportsNothing(AssignHead(s, i, now), now, broken);
    }
  }

  function ReadMessage(read: Read): Option<Message> {
    if read.Got? then Some(read.message) else None
  }

  lemma VisitDue(code: Code, s: State, i: nat, reply: Reply, m: Times, timeout: real)
    requires Counts(code, s, m, timeout) && i < |s.workers|
    ensures OnlyDue(code, s, PollWorker(s, i, reply).0, m, reply.at, timeout, ReadMessage(reply.read))
  {
    if i in s.active {
      var (w, received) := Receive(s.workers[i], reply.read);
      if received.Delivered? && Terminal(received.message.kind) {
        FinishDue(code, s, i, w, received.message, m, reply.at, timeout);
        EndDue(code, s, Finish(s, i, w, received.message), reply, m, timeout);
      } else {
        NoEndDue(code, s, i, reply, m, timeout);
      }
    }
  }

  lemma NoEndDue(code: Code, s: State, i: nat, reply: Reply, m: Times, timeout: real)
    requires i in s.active && i < |s.workers|
    requires var received := Receive(s.workers[i], reply.read).1; !(received.Delivered? && Terminal(received.message.kind))
    ensures OnlyDue(code, s, PollWorker(s, i, reply).0, m, reply.at, timeout, ReadMessage(reply.read))
  {
  }

  lemma FinishDue(code: Code, s: State, i: nat, w: Worker, message: Message, m: Times, at: real, timeout: real)
    requires i in s.active && i < |s.workers|
    ensures OnlyDue(code, s, Finish(s, i, w, message), m, at, timeout, Some(message))
  {
  }

  lemma EndDue(code: Code, s: State, u: State, reply: Reply, m: Times, timeout: real)
    requires Counts(code, u, m, timeout)
    requires OnlyDue(code, s, u, m, reply.at, timeout, ReadMessage(reply.read))
    ensures OnlyDue(code, s, DispatchPending(u, reply.at, reply.broken).0, m, reply.at, timeout, ReadMessage(reply.read))
  {
    var v := ExpirePending(u, reply.at);
    PendingDue(code, u, reply.at, m, timeout, ReadMessage(reply.read));
    DueTrans(code, s, u, v, m, reply.at, timeout, ReadMessage(reply.read));
    DispatchReportsNothing(v, reply.at, reply.broken);
  }

  // Report `k` was added by visit `j` of the loop that began in `s` at worker `i`.
  predicate ReportedAt(s: State, i: nat, j: nat, replies: seq<Reply>, k: nat)
    requires i <= j < |s.workers| <= |replies|
  {
    New(Before(s, i, j, replies), Before(s, i, j + 1, replies), k)
  }

  // At that visit the report was what was read, or due.
  ghost predicate DueAt(code: Code, s: State, i: nat, j: nat, replies: seq<Reply>, k: nat, report: Message, m: Times, timeout: real)
    requires i <= j < |s.workers| <= |replies|
  {
    && ReportedAt(s, i, j, replies, k)
    && (replies[j].read == Got(report)
        || (report.requestId.Some? && Due(m, report.requestId.value, replies[j].at, timeout)))
  }

  lemma BeforeLater(s: State, t: State, i: nat, j: nat, replies: seq<Reply>)
    requires i + 1 <= j <= |s.workers| <= |replies| && t == PollWorker(s, i, replies[i]).0
    ensures Before(s, i, j, replies) == Before(t, i + 1, j, replies)
  {
  }

  lemma DueLater(code: Code, s: State, t: State, i: nat, j: nat, replies: seq<Reply>, k: nat, report: Message, m: Times, timeout: real)
    requires i + 1 <= j < |s.workers| <= |replies| && t == PollWorker(s, i, replies[i]).0
    ensures DueAt(code, s, i, j, replies, k, report, m, timeout) <==> DueAt(code, t, i + 1, j, replies, k, report, m, timeout)
  {
    BeforeLater(s, t, i, j, replies);
    BeforeLater(s, t, i, j + 1, replies);
  }

  lemma VisitCounts(code: Code, s: State, i: nat, reply: Reply, m: Times, timeout: real)
    requires Counts(code, s, m, timeout) && i < |s.workers|
    ensures Counts(code, PollWorker(s, i, reply).0, m, timeout)
  {
    var t := VisitSuffix(s, i, reply);
    SuffixCounts(code, s, t, m, timeout);
  }

  lemma SuffixCounts(code: Code, s: State, t: State, m: Times, timeout: real)
    requires Counts(code, s, m, timeout) && t.config == s.config
    requires |t.pending| <= |s.pending| && t.pending == s.pending[|s.pending| - |t.pending|..]
    ensures Counts(code, t, m, timeout)
  {
    if code.QueueTimeout? { SuffixStamps(s.pending, t.pending, m); }
  }

  // A visit takes requests from the front of the queue only.
  lemma VisitSuffix(s: State, i: nat, reply: Reply) returns (t: State)
    requires i < |s.workers|
    ensures t == PollWorker(s, i, reply).0 && t.config == s.config
    ensures |t.pending| <= |s.pending| && t.pending == s.pending[|s.pending| - |t.pending|..]
  {
    t := PollWorker(s, i, reply).0;
    PollWorkerOrder(s, i, reply);
  }

  lemma FirstVisitDue(code: Code, s: State, i: nat, replies: seq<Reply>, m: Times, timeout: real) returns (t: State, raised: bool)
    requires Counts(code, s, m, timeout) && i < |s.workers| <= |replies|
    ensures OnlyDue(code, s, t, m, replies[i].at, timeout, ReadMessage(replies[i].read))
    ensures Counts(code, t, m, timeout) && |t.workers| == |s.workers|
    ensures t == PollWorker(s, i, replies[i]).0
    ensures PollFrom(s, i, replies) == if raised then (t, true) else PollFrom(t, i + 1, replies)
  {
    t, raised := PollWorker(s, i, replies[i]).0, PollWorker(s, i, replies[i]).1;
    VisitDue(code, s, i, replies[i], m, timeout);
    VisitCounts(code, s, i, replies[i], m, timeout);
  }

  lemma FirstIsDue(code: Code, s: State, i: nat, replies: seq<Reply>, t: State, k: nat, m: Times, timeout: real)
    requires i < |s.workers| <= |replies| && t == PollWorker(s, i, replies[i]).0
    requires OnlyDue(code, s, t, m, replies[i].at, timeout, ReadMessage(replies[i].read)) && New(s, t, k) && TimedOutReport(code, t.log.reports[k])
    ensures DueAt(code, s, i, i, replies, k, t.log.reports[k], m, timeout)
  {
    assert Before(s, i, i, replies) == s && Before(s, i, i + 1, replies) == t;
  }

  lemma {:induction false} LoopDue(code: Code, s: State, i: nat, replies: seq<Reply>, k: nat, m: Times, timeout: real) returns (j: nat)
    requires Counts(code, s, m, timeout) && i <= |s.workers| <= |replies|
    requires var r := PollFrom(s, i, replies).0; New(s, r, k) && TimedOutReport(code, r.log.reports[k])
    ensures i <= j < |s.workers| && DueAt(code, s, i, j, replies, k, PollFrom(s, i, replies).0.log.reports[k], m, timeout)
    decreases |s.workers| - i
  {
    var t, raised := FirstVisitDue(code, s, i, replies, m, timeout);
    if raised || k < |t.log.reports| {
      LoopReportsMore(t, i + 1, replies);
      j := i;
      FirstIsDue(code, s, i, replies, t, k, m, timeout);
    } else {
      j := LoopDue(code, t, i + 1, replies, k, m, timeout);
      DueLater(code, s, t, i, j, replies, k, PollFrom(s, i, replies).0.log.reports[k], m, timeout);
    }
  }

  lemma {:induction false} LoopReportsMore(s: State, i: nat, replies: seq<Reply>)
    requires |s.workers| <= |replies|
    ensures i <= |s.workers| ==> s.log.reports <= PollFrom(s, i, replies).0.log.reports
    decreases |s.workers| - i
  {
    if i < |s.workers| {
      var t := VisitReportsMore(s, i, replies);
      LoopReportsMore(t, i + 1, replies);
    }
  }

  lemma VisitReportsMore(s: State, i: nat, replies: seq<Reply>) returns (t: State)
    requires i < |s.workers| <= |replies|
    ensures s.log.reports <= t.log.reports && |t.workers| == |s.workers|
    ensures PollFrom(s, i, replies).0 in {t, PollFrom(t, i + 1, replies).0}
  {
    t := PollWorker(s, i, replies[i]).0;
    VisitAddsReports(s, i, replies[i]);
  }

  lemma VisitAddsReports(s: State, i: nat, reply: Reply)
    requires i < |s.workers|
    ensures s.log.reports <= PollWorker(s, i, reply).0.log.reports
  {
    if i in s.active {
      var (w, received) := Receive(s.workers[i], reply.read);
      if received.Delivered? && Terminal(received.message.kind) {
        DispatchPendingProgress(Finish(s, i, w, received.message), reply.at, reply.broken);
      }
    }
  }

  lemma {:induction false} FailingTimesNone(code: Code, s: State)
    ensures s.log.reports <= FailHeads(s).log.reports
    ensures forall k: nat :: New(s, FailHeads(s), k) ==> !TimedOutReport(code, FailHeads(s).log.reports[k])
    decreases |s.pending|
  {
    if s.pending != [] {
      var t := RetireHead(s, Failure(FromScheduler, s.pending[0].request.id, NoHealthyWorker));
      FailingTimesNone(code, t);
      forall k: nat | New(s, FailHeads(s), k) ensures !TimedOutReport(code, FailHeads(s).log.reports[k]) {
        if k > |s.log.reports| { assert New(t, FailHeads(t), k); }
      }
    }
  }

  // Report `k` of the poll was made before it read from any worker, and was due by `m`; or some visit made it, and it was
  // due by `later` then, or read.
  ghost predicate DueInPoll(code: Code, t: State, now: real, replies: seq<Reply>, m: Times, later: Times, timeout: real, k: nat)
    requires |t.workers| <= |replies| && k < |Poll(t, now, replies).0.log.reports|
  {
    var e, report := Expire(t, now), Poll(t, now, replies).0.log.reports[k];
    || (k < |e.log.reports| && report.requestId.Some? && Due(m, report.requestId.value, now, timeout))
    || exists j :: 0 <= j < |t.workers| && DueAt(code, e, 0, j, replies, k, report, later, timeout)
  }

  lemma PollDue(code: Code, t: State, now: real, replies: seq<Reply>, m: Times, later: Times, timeout: real, k: nat)
    requires |t.workers| <= |replies|
    requires OnlyDue(code, t, Expire(t, now), m, now, timeout, None) && Counts(code, Expire(t, now), later, timeout)
    requires var r := Poll(t, now, replies).0; New(t, r, k) && TimedOutReport(code, r.log.reports[k])
    ensures DueInPoll(code, t, now, replies, m, later, timeout, k)
  {
    var e := Expire(t, now);
    PollKeepsReports(t, now, replies);
    if e.events == [] && k >= |e.log.reports| { LaterReportIsDue(code, e, replies, later, timeout, k); }
  }

  lemma PollKeepsReports(t: State, now: real, replies: seq<Reply>)
    requires |t.workers| <= |replies|
    ensures Expire(t, now).log.reports <= Poll(t, now, replies).0.log.reports
  {
    var e := Expire(t, now);
    LoopReportsMore(e, 0, replies);
    FailingTimesNone(QueueTimeout, PollFrom(e, 0, replies).0);
  }

  // A report that the loop made.
  lemma LaterReportIsDue(code: Code, e: State, replies: seq<Reply>, later: Times, timeout: real, k: nat)
    requires |e.workers| <= |replies| && Counts(code, e, later, timeout)
    requires var u := PollFrom(e, 0, replies).0; var r := FailPendingWithoutHealthy(u);
      (New(e, u, k) && TimedOutReport(code, u.log.reports[k])) || (New(e, r, k) && TimedOutReport(code, r.log.reports[k]))
    ensures var u := PollFrom(e, 0, replies).0;
      && u.log.reports <= FailPendingWithoutHealthy(u).log.reports && k < |u.log.reports|
      && exists j :: 0 <= j < |e.workers| && DueAt(code, e, 0, j, replies, k, u.log.reports[k], later, timeout)
  {
    var u := PollFrom(e, 0, replies).0;
    LoopReportsMore(e, 0, replies);
    FailingTimesNone(code, u);
    var j := LoopDue(code, e, 0, replies, k, later, timeout);
  }

  /** A poll reports `queue_timeout` for no request too early: at its first reading, or at that of the visit that made
      the report, the request had been submitted the queue timeout before, or longer; unless that is what the visit read
      from its worker. */
  lemma QueueTimeoutsAreDue(s: State, ops: seq<Op>, now: real, replies: seq<Reply>, timeout: real, k: nat)
    requires Init(s) && s.config.queueTimeout == Some(timeout) && |s.workers| <= |replies| && AllFit(ops, |s.workers|)
    requires var r := Poll(Run(s, ops), now, replies).0; New(Run(s, ops), r, k) && r.log.reports[k].note == Fault(QueueTimeout)
    ensures var m := AdmissionTimes(s, ops, map[]); DueInPoll(QueueTimeout, Run(s, ops), now, replies, m, m, timeout, k)
  {
    var t, m := Run(s, ops), AdmissionTimes(s, ops, map[]);
    InitInv(s);
    RunKeepsStamps(s, ops, map[]);
    ExpireDue(QueueTimeout, t, now, m, timeout);
    PollDue(QueueTimeout, t, now, replies, m, m, timeout, k);
  }

  /* ---- When requests were dispatched ---- */

  // What was dispatched between the two states, was at the reading `at`.
  function NoteDispatches(s: State, t: State, at: real, m: Times): Times {
    if |t.log.dispatched| < |s.log.dispatched| then m
    else m + map id | id in t.log.dispatched[|s.log.dispatched|..] :: at
  }

  // The visits from worker `i` on, each with its own reading.
  function VisitTimes(s: State, i: nat, replies: seq<Reply>, m: Times): Times
    requires i <= |s.workers| <= |replies|
    decreases |s.workers| - i
  {
    if i == |s.workers| then m
    else
      var (t, raised) := PollWorker(s, i, replies[i]);
      var m1 := NoteDispatches(s, t, replies[i].at, m);
      if raised then m1 else VisitTimes(t, i + 1, replies, m1)
  }

  function OpTimes(s: State, op: Op, m: Times): Times
    requires Fits(op, |s.workers|)
  {
    match op
    case SubmitOp(_, now, _) => NoteDispatches(s, Step(s, op), now, m)
    case PollOp(now, replies) => if Loops(s, now) then VisitTimes(Expire(s, now), 0, replies, m) else m
    case _ => m
  }

  function DispatchTimes(s: State, ops: seq<Op>, m: Times): Times
    requires AllFit(ops, |s.workers|)
    decreases |ops|
  {
    if ops == [] then m else DispatchTimes(Step(s, ops[0]), ops[1..], OpTimes(s, ops[0], m))
  }

  // Running requests are stamped with these readings.
  ghost predicate Started(s: State, m: Times) {
    forall i: nat :: i in s.active ==> i in s.started && s.active[i] in m && m[s.active[i]] == s.started[i]
  }

  // Requests may have stopped running, but none was dispatched.
  ghost predicate OnlyStops(s: State, t: State) {
    && t.log.dispatched == s.log.dispatched
    && forall i: nat :: i in t.active ==>
         i in s.active && t.active[i] == s.active[i] && (i in s.started ==> i in t.started && t.started[i] == s.started[i])
  }

  lemma StopsStarted(s: State, t: State, at: real, m: Times)
    requires Started(s, m) && OnlyStops(s, t)
    ensures Started(t, m) && NoteDispatches(s, t, at, m) == m
  {
  }

  lemma NotedOne(s: State, t: State, at: real, m: Times, id: RequestId)
    requires t.log.dispatched == s.log.dispatched + [id]
    ensures NoteDispatches(s, t, at, m) == m[id := at]
  {
    assert t.log.dispatched[|s.log.dispatched|..] == [id];
  }

  lemma NotedTwice(s: State, t: State, r: State, at: real, m: Times)
    requires s.log.dispatched <= t.log.dispatched <= r.log.dispatched
    ensures NoteDispatches(s, r, at, m) == NoteDispatches(t, r, at, NoteDispatches(s, t, at, m))
  {
    var a, b := t.log.dispatched[|s.log.dispatched|..], r.log.dispatched[|t.log.dispatched|..];
    assert r.log.dispatched[|s.log.dispatched|..] == a + b;
    NotedBoth(a, b, at, m);
  }

  lemma NotedBoth(a: seq<RequestId>, b: seq<RequestId>, at: real, m: Times)
    ensures m + (map id | id in a + b :: at) == (m + map id | id in a :: at) + map id | id in b :: at
  {
    assert (map id | id in a + b :: at).Keys == (map id | id in a :: at).Keys + (map id | id in b :: at).Keys;
  }

  // The request is sent to a ready worker, and runs nowhere else.
  lemma AssignStarted(s: State, i: nat, id: RequestId, now: real, m: Times)
    requires Shape(s) && Started(s, m) && i < |s.workers| && forall w: nat :: !Runs(s, w, id)
    ensures Started(Assign(s, i, id, now), m[id := now])
  {
    var t := Assign(s, i, id, now);
    forall w: nat | w in t.active ensures w in t.started && t.active[w] in m[id := now] && m[id := now][t.active[w]] == t.started[w] {
      if w != i { assert !Runs(s, w, id); }
    }
  }

  lemma HeadRunsNowhere(s: State)
    requires Core(s) && s.pending != []
    ensures forall w: nat :: !Runs(s, w, s.pending[0].request.id)
  {
    forall w: nat ensures !Runs(s, w, s.pending[0].request.id) {
      if w in s.active { RunningOnlyThere(s, w); }
    }
  }

  lemma NewRunsNowhere(s: State, id: RequestId)
    requires Core(s) && id !in s.submitted
    ensures forall w: nat :: !Runs(s, w, id)
  {
    forall w: nat ensures !Runs(s, w, id) {
      if w in s.active {
        assert s.workers[w] == Worker(Busy, Some(s.active[w])) && Accounted(s, id) == 0;
        if s.active[w] == id { OneRunning(s.workers, w, id); }
      }
    }
  }

  lemma AssignHeadStarted(s: State, i: nat, now: real, m: Times) returns (t: State)
    requires Core(s) && Started(s, m) && s.pending != [] && i < |s.workers| && s.workers[i].state.Ready?
    ensures t == AssignHead(s, i, now) && Core(t) && Started(t, NoteDispatches(s, t, now, m)) && s.log.dispatched <= t.log.dispatched
  {
    t := AssignHead(s, i, now);
    AssignHeadKeeps(s, i, now);
    HeadRunsNowhere(s);
    var id := s.pending[0].request.id;
    AssignStarted(s, i, id, now, m);
    NotedOne(s, t, now, m, id);
  }

  lemma {:induction false} DispatchStarted(s: State, now: real, broken: set<nat>, m: Times)
    requires Core(s) && Started(s, m)
    ensures var r := DispatchLoop(s, now, broken).0;
      s.log.dispatched <= r.log.dispatched && Started(r, NoteDispatches(s, r, now, m))
    decreases |s.pending|
  {
    var i := FirstReady(s.workers);
    if s.pending != [] && BelowCap(s) && i < |s.workers| && i !in broken {
      var t := AssignHeadStarted(s, i, now, m);
      DispatchStarted(t, now, broken, NoteDispatches(s, t, now, m));
      NotedTwice(s, t, DispatchLoop(s, now, broken).0, now, m);
    } else {
      StopsStarted(s, DispatchLoop(s, now, broken).0, now, m);
    }
  }

  /* ---- Stops, in what expires and fails ---- */

  lemma {:induction false} HeadsStopNone(s: State, now: real, timeout: real)
    ensures OnlyStops(s, ExpireHeads(s, now, timeout)) && ExpireHeads(s, now, timeout).active == s.active
    decreases |s.pending|
  {
    if s.pending != [] && Overdue(s.pending[0], now, timeout) {
      HeadsStopNone(RetireHead(s, Failure(FromScheduler, s.pending[0].request.id, QueueTimeout)), now, timeout);
    }
  }

  lemma {:induction false} FailingStopsNone(s: State)
    ensures OnlyStops(s, FailHeads(s)) && FailHeads(s).active == s.active
    decreases |s.pending|
  {
    if s.pending != [] { FailingStopsNone(RetireHead(s, Failure(FromScheduler, s.pending[0].request.id, NoHealthyWorker))); }
  }

  // Those left running past worker `i` have not run for too long.
  ghost predicate RecentFrom(s: State, i: nat, now: real, timeout: real) {
    forall w: nat :: w in s.active && w < i ==> w in s.started && now - s.started[w] < timeout
  }

  lemma {:induction false} WorkersStop(s: State, i: nat, now: real, timeout: real)
    requires i <= |s.workers| && RecentFrom(s, i, now, timeout) && s.started.Keys == s.active.Keys
    ensures var t := ExpireActiveFrom(s, i, now, timeout); OnlyStops(s, t) && RecentFrom(t, |s.workers|, now, timeout)
    decreases |s.workers| - i
  {
    if i < |s.workers| {
      var t := ExpireWorker(s, i, now, timeout);
      assert OnlyStops(s, t);
      WorkersStop(t, i + 1, now, timeout);
      StopsTwice(s, t, ExpireActiveFrom(t, i + 1, now, timeout));
    }
  }

  lemma StopsTwice(s: State, t: State, r: State)
    requires OnlyStops(s, t) && OnlyStops(t, r)
    ensures OnlyStops(s, r)
  {
  }

  lemma ExpireStops(s: State, now: real)
    requires Shape(s)
    ensures OnlyStops(s, Expire(s, now))
    ensures s.config.maxInference.Some? ==> RecentFrom(Expire(s, now), |s.workers|, now, s.config.maxInference.value)
  {
    var t := ExpireActive(s, now);
    assert OnlyStops(s, t) && (s.config.maxInference.Some? ==> RecentFrom(t, |s.workers|, now, s.config.maxInference.value)) by {
      if s.config.maxInference.Some? {
        var u := ExpireActiveFrom(s, 0, now, s.config.maxInference.value);
        WorkersStop(s, 0, now, s.config.maxInference.value);
        FailingStopsNone(u);
        StopsTwice(s, u, FailHeads(u));
      }
    }
    if s.config.queueTimeout.Some? { HeadsStopNone(t, now, s.config.queueTimeout.value); }
    StopsTwice(s, t, Expire(s, now));
    StillRecent(t, Expire(s, now), now);
  }

  lemma StillRecent(t: State, e: State, now: real)
    requires OnlyStops(t, e)
    ensures forall n: nat, timeout: real :: RecentFrom(t, n, now, timeout) ==> RecentFrom(e, n, now, timeout)
  {
  }

  lemma FailPendingStops(s: State)
    ensures OnlyStops(s, FailPendingWithoutHealthy(s))
  {
    FailingStopsNone(s);
  }

  /* ---- The stamps of running requests ---- */

  lemma VisitStarted(s: State, i: nat, reply: Reply, m: Times)
    requires Core(s) && Started(s, m) && i < |s.workers|
    ensures var t := PollWorker(s, i, reply).0; Started(t, NoteDispatches(s, t, reply.at, m))
  {
    var t := PollWorker(s, i, reply).0;
    if Ends(s, i, reply) {
      EndedVisit(s, i, reply);
      AtDispatchStops(s, i, reply);
      var u := AtDispatch(s, i, reply);
      StopsStarted(s, u, reply.at, m);
      DispatchStarted(u, reply.at, reply.broken, m);
    } else {
      QuietVisitStops(s, i, reply);
      StopsStarted(s, t, reply.at, m);
    }
  }

  lemma AtDispatchStops(s: State, i: nat, reply: Reply)
    requires Ends(s, i, reply) && i < |s.workers|
    ensures OnlyStops(s, AtDispatch(s, i, reply))
  {
    var u := Finish(s, i, Worker(WorkerState.Ready, None), reply.read.message);
    if u.config.queueTimeout.Some? { HeadsStopNone(u, reply.at, u.config.queueTimeout.value); }
  }

  lemma QuietVisitStops(s: State, i: nat, reply: Reply)
    requires Core(s) && i < |s.workers| && !Ends(s, i, reply)
    ensures OnlyStops(s, PollWorker(s, i, reply).0)
  {
    if i in s.active { NoEnd(s.workers[i], s.active[i], reply.read); }
  }

  lemma {:induction false} VisitsStarted(s: State, i: nat, replies: seq<Reply>, m: Times)
    requires Core(s) && Started(s, m) && i <= |s.workers| <= |replies|
    ensures Started(PollFrom(s, i, replies).0, VisitTimes(s, i, replies, m))
    decreases |s.workers| - i
  {
    if i < |s.workers| {
      var t, raised := FirstStarted(s, i, replies, m);
      if !raised { VisitsStarted(t, i + 1, replies, NoteDispatches(s, t, replies[i].at, m)); }
    }
  }

  lemma FirstStarted(s: State, i: nat, replies: seq<Reply>, m: Times) returns (t: State, raised: bool)
    requires Core(s) && Started(s, m) && i < |s.workers| <= |replies|
    ensures (t, raised) == PollWorker(s, i, replies[i]) && Core(t) && |t.workers| == |s.workers|
    ensures Started(t, NoteDispatches(s, t, replies[i].at, m))
  {
    t, raised := PollWorker(s, i, replies[i]).0, PollWorker(s, i, replies[i]).1;
    PollWorkerKeeps(s, i, replies[i]);
    VisitStarted(s, i, replies[i], m);
  }

  lemma PollStarted(s: State, now: real, replies: seq<Reply>, m: Times)
    requires Core(s) && Started(s, m) && |s.workers| <= |replies|
    ensures Started(Poll(s, now, replies).0, OpTimes(s, PollOp(now, replies), m))
  {
    var e := Expire(s, now);
    ExpireStops(s, now);
    ExpireKeeps(s, now);
    StopsStarted(s, e, now, m);
    if e.events == [] { LoopStarted(e, replies, m); }
  }

  lemma LoopStarted(e: State, replies: seq<Reply>, m: Times)
    requires Core(e) && Started(e, m) && |e.workers| <= |replies|
    ensures var u := PollFrom(e, 0, replies).0;
      && Started(u, VisitTimes(e, 0, replies, m))
      && Started(Drain(FailPendingWithoutHealthy(u)), VisitTimes(e, 0, replies, m))
  {
    var u := PollFrom(e, 0, replies).0;
    VisitsStarted(e, 0, replies, m);
    FailPendingStops(u);
    StopsStarted(u, FailPendingWithoutHealthy(u), 0.0, VisitTimes(e, 0, replies, m));
  }

  lemma SubmitStarted(s: State, request: Request, now: real, broken: set<nat>, m: Times)
    requires Core(s) && Started(s, m)
    ensures Started(Submit(s, request, now, broken).0, OpTimes(s, SubmitOp(request, now, broken), m))
  {
    var (r, outcome) := Submit(s, request, now, broken);
    if outcome.Dispatched? {
      SubmitCases(s, request, now, broken);
      NewRunsNowhere(s, request.id);
      forall w: nat ensures !Runs(Admit(s, request.id), w, request.id) { assert !Runs(s, w, request.id); }
      AssignStarted(Admit(s, request.id), FirstReady(s.workers), request.id, now, m);
      NotedOne(s, r, now, m, request.id);
    } else {
      SubmitStops(s, request, now, broken);
      StopsStarted(s, r, now, m);
    }
  }

  lemma SubmitStops(s: State, request: Request, now: real, broken: set<nat>)
    requires !Submit(s, request, now, broken).1.Dispatched?
    ensures OnlyStops(s, Submit(s, request, now, broken).0)
  {
  }

  lemma CancelStops(s: State, id: RequestId)
    ensures OnlyStops(s, Cancel(s, id).0)
  {
    var i := HolderFrom(s, 0, id);
    if IndexOf(s.pending, id) == |s.pending| && i < |s.workers| {
      var (w, cancelled) := CancelActive(s.workers[i]);
      FailPendingStops(Record(Release(s, i, w), Message(Cancelled, FromWorker(i), cancelled, StageActive, 0)));
    }
  }

  lemma {:induction false} CloseWorkersStop(s: State, i: nat)
    requires i <= |s.workers|
    ensures OnlyStops(s, CloseWorkersFrom(s, i))
    decreases |s.workers| - i
  {
    if i < |s.workers| {
      CloseWorkersStop(CloseWorker(s, i), i + 1);
      StopsTwice(s, CloseWorker(s, i), CloseWorkersFrom(s, i));
    }
  }

  lemma {:induction false} CancelHeadsStop(s: State)
    ensures OnlyStops(s, CancelHeads(s))
    decreases |s.pending|
  {
    if s.pending != [] {
      CancelHeadsStop(RetireHead(s, Message(Cancelled, FromScheduler, Some(s.pending[0].request.id), StageShutdown, 0)));
    }
  }

  lemma CloseStops(s: State)
    ensures OnlyStops(s, Close(s))
  {
    if !s.closed {
      var s1 := CancelHeads(s.(closed := true));
      CancelHeadsStop(s.(closed := true));
      CloseWorkersStop(s1, 0);
    }
  }

  lemma StepStarted(s: State, op: Op, m: Times)
    requires Inv(s) && Started(s, m) && Fits(op, |s.workers|)
    ensures Started(Step(s, op), OpTimes(s, op, m))
  {
    match op
    case SubmitOp(request, now, broken) => SubmitStarted(s, request, now, broken, m);
    case PollOp(now, replies) => PollStarted(s, now, replies, m);
    case CancelOp(id) => CancelStops(s, id); StopsStarted(s, Step(s, op), 0.0, m);
    case CloseOp => CloseStops(s); StopsStarted(s, Step(s, op), 0.0, m);
  }

  lemma {:induction false} RunStarted(s: State, ops: seq<Op>, m: Times)
    requires Inv(s) && Started(s, m) && AllFit(ops, |s.workers|)
    ensures Started(Run(s, ops), DispatchTimes(s, ops, m))
    decreases |ops|
  {
    if ops != [] {
      StepStarted(s, ops[0], m);
      StepKeeps(s, ops[0]);
      RunStarted(Step(s, ops[0]), ops[1..], OpTimes(s, ops[0], m));
    }
  }

  /* ---- How long a request may run ---- */

  lemma {:induction false} DispatchRecent(s: State, at: real, broken: set<nat>, now: real, timeout: real)
    requires RecentFrom(s, |s.workers|, now, timeout) && timeout > 0.0 && now <= at
    ensures var r := DispatchLoop(s, at, broken).0; RecentFrom(r, |s.workers|, now, timeout)
    decreases |s.pending|
  {
    var i := FirstReady(s.workers);
    if s.pending != [] && BelowCap(s) && i < |s.workers| && i !in broken {
      DispatchRecent(AssignHead(s, i, at), at, broken, now, timeout);
    }
  }

  lemma VisitRecent(s: State, i: nat, reply: Reply, now: real, timeout: real)
    requires Core(s) && i < |s.workers| && RecentFrom(s, |s.workers|, now, timeout) && timeout > 0.0 && now <= reply.at
    ensures RecentFrom(PollWorker(s, i, reply).0, |s.workers|, now, timeout)
  {
    if Ends(s, i, reply) {
      EndedVisit(s, i, reply);
      AtDispatchStops(s, i, reply);
      StillRecent(s, AtDispatch(s, i, reply), now);
      DispatchRecent(AtDispatch(s, i, reply), reply.at, reply.broken, now, timeout);
    } else {
      QuietVisitStops(s, i, reply);
      StillRecent(s, PollWorker(s, i, reply).0, now);
    }
  }

  lemma {:induction false} VisitsRecent(s: State, i: nat, replies: seq<Reply>, now: real, timeout: real)
    requires Core(s) && i <= |s.workers| <= |replies| && RecentFrom(s, |s.workers|, now, timeout) && timeout > 0.0
    requires forall k :: 0 <= k < |replies| ==> now <= replies[k].at
    ensures RecentFrom(PollFrom(s, i, replies).0, |s.workers|, now, timeout)
    decreases |s.workers| - i
  {
    if i < |s.workers| {
      var t, raised := FirstRecent(s, i, replies, now, timeout);
      if !raised { VisitsRecent(t, i + 1, replies, now, timeout); }
    }
  }

  lemma FirstRecent(s: State, i: nat, replies: seq<Reply>, now: real, timeout: real) returns (t: State, raised: bool)
    requires Core(s) && i < |s.workers| <= |replies| && RecentFrom(s, |s.workers|, now, timeout) && timeout > 0.0
    requires now <= replies[i].at
    ensures Core(t) && |t.workers| == |s.workers| && RecentFrom(t, |s.workers|, now, timeout)
    ensures PollFrom(s, i, replies) == if raised then (t, true) else PollFrom(t, i + 1, replies)
  {
    t, raised := PollWorker(s, i, replies[i]).0, PollWorker(s, i, replies[i]).1;
    PollWorkerKeeps(s, i, replies[i]);
    VisitRecent(s, i, replies[i], now, timeout);
  }

  lemma PollRecent(s: State, now: real, replies: seq<Reply>, timeout: real)
    requires Core(s) && s.config.maxInference == Some(timeout) && timeout > 0.0 && |s.workers| <= |replies|
    requires forall k :: 0 <= k < |replies| ==> now <= replies[k].at
    ensures RecentFrom(Poll(s, now, replies).0, |s.workers|, now, timeout)
  {
    var e := Expire(s, now);
    ExpireStops(s, now);
    ExpireKeeps(s, now);
    if e.events == [] {
      var u := PollFrom(e, 0, replies).0;
      VisitsRecent(e, 0, replies, now, timeout);
      FailPendingStops(u);
      StillRecent(u, FailPendingWithoutHealthy(u), now);
    }
  }

  /** After any run and a poll at the reading `now`, every request that is still running was dispatched less than the
      inference timeout before; and the reading of its dispatch is that of the operation or visit that sent it. */
  lemma RunningIsBounded(s: State, ops: seq<Op>, now: real, replies: seq<Reply>, timeout: real)
    requires Init(s) && s.config.maxInference == Some(timeout) && timeout > 0.0 && |s.workers| <= |replies|
    requires AllFit(ops + [PollOp(now, replies)], |s.workers|) && forall k :: 0 <= k < |replies| ==> now <= replies[k].at
    ensures var all := ops + [PollOp(now, replies)];
      var r, m := Run(s, all), DispatchTimes(s, all, map[]);
      forall i: nat :: i in r.active ==> r.active[i] in m && now - m[r.active[i]] < timeout
  {
    var all := ops + [PollOp(now, replies)];
    assert forall k :: 0 <= k < |ops| ==> all[k] == ops[k];
    InitInv(s);
    RunStarted(s, all, map[]);
    RunKeeps(s, ops);
    RunConcat(s, ops, [PollOp(now, replies)]);
    RunOne(Run(s, ops), PollOp(now, replies));
    PollRecent(Run(s, ops), now, replies, timeout);
    RunKeeps(s, all);
  }

  /** A poll reports `inference_timeout` for no request too early: at its first reading the request had been running for
      the inference timeout, or longer; unless that is what a visit read from its worker. */
  lemma InferenceTimeoutsAreDue(s: State, ops: seq<Op>, now: real, replies: seq<Reply>, timeout: real, k: nat)
    requires Init(s) && s.config.maxInference == Some(timeout) && |s.workers| <= |replies| && AllFit(ops, |s.workers|)
    requires var r := Poll(Run(s, ops), now, replies).0; New(Run(s, ops), r, k) && r.log.reports[k].note == Fault(InferenceTimeout)
    ensures DueInPoll(InferenceTimeout, Run(s, ops), now, replies, DispatchTimes(s, ops, map[]), map[], timeout, k)
  {
    var t, m := Run(s, ops), DispatchTimes(s, ops, map[]);
    InitInv(s);
    RunStarted(s, ops, map[]);
    ExpireDue(InferenceTimeout, t, now, m, timeout);
    PollDue(InferenceTimeout, t, now, replies, m, map[], timeout, k);
  }

  /* ---- Who is served had not waited too long ---- */

  // All that is noted in `notes` happened less than `timeout` after the admission.
  ghost predicate InTime(notes: Times, m: Times, timeout: real) {
    forall id :: id in notes ==> id in m && notes[id] - m[id] < timeout
  }

  ghost predicate AllRecent(pending: seq<Pending>, now: real, timeout: real) {
    forall k :: 0 <= k < |pending| ==> now - pending[k].enqueuedAt < timeout
  }

  lemma {:induction false} LoopInTime(s: State, now: real, broken: set<nat>, notes: Times, m: Times, timeout: real)
    requires Stamps(s.pending, m) && AllRecent(s.pending, now, timeout) && InTime(notes, m, timeout)
    ensures var r := DispatchLoop(s, now, broken).0;
      s.log.dispatched <= r.log.dispatched && InTime(NoteDispatches(s, r, now, notes), m, timeout)
    decreases |s.pending|
  {
    var i := FirstReady(s.workers);
    if s.pending != [] && BelowCap(s) && i < |s.workers| && i !in broken {
      var t := HeadInTime(s, i, now, notes, m, timeout);
      LoopInTime(t, now, broken, NoteDispatches(s, t, now, notes), m, timeout);
      NotedTwice(s, t, DispatchLoop(s, now, broken).0, now, notes);
    }
  }

  lemma HeadInTime(s: State, i: nat, now: real, notes: Times, m: Times, timeout: real) returns (t: State)
    requires Stamps(s.pending, m) && AllRecent(s.pending, now, timeout) && InTime(notes, m, timeout)
    requires s.pending != [] && i < |s.workers|
    ensures t == AssignHead(s, i, now) && Stamps(t.pending, m) && AllRecent(t.pending, now, timeout)
    ensures s.log.dispatched <= t.log.dispatched && InTime(NoteDispatches(s, t, now, notes), m, timeout)
  {
    t := AssignHead(s, i, now);
    NotedOne(s, t, now, notes, s.pending[0].request.id);
  }

  lemma VisitInTime(s: State, i: nat, reply: Reply, notes: Times, m: Times, timeout: real)
    requires Core(s) && i < |s.workers| && s.config.queueTimeout == Some(timeout)
    requires Timed(s, reply.at) && Stamps(s.pending, m) && InTime(notes, m, timeout)
    ensures var t := PollWorker(s, i, reply).0; InTime(NoteDispatches(s, t, reply.at, notes), m, timeout)
  {
    if Ends(s, i, reply) {
      EndedVisit(s, i, reply);
      AtDispatchStops(s, i, reply);
      var u := WaitingAtDispatch(s, i, reply, m, timeout);
      LoopInTime(u, reply.at, reply.broken, notes, m, timeout);
    } else {
      QuietVisitStops(s, i, reply);
    }
  }

  lemma WaitingAtDispatch(s: State, i: nat, reply: Reply, m: Times, timeout: real) returns (u: State)
    requires i < |s.workers| && Ends(s, i, reply) && s.config.queueTimeout == Some(timeout)
    requires Timed(s, reply.at) && Stamps(s.pending, m)
    ensures u == AtDispatch(s, i, reply) && Stamps(u.pending, m) && AllRecent(u.pending, reply.at, timeout)
  {
    u := AtDispatch(s, i, reply);
    var v := Finish(s, i, Worker(WorkerState.Ready, None), reply.read.message);
    HeadsLeaveRecent(v, reply.at, timeout);
    ExpiredSuffix(v, reply.at);
    SuffixStamps(v.pending, u.pending, m);
  }

  lemma ExpiredSuffix(s: State, now: real)
    ensures var r := ExpirePending(s, now); |r.pending| <= |s.pending| && r.pending == s.pending[|s.pending| - |r.pending|..]
  {
    ExpirePendingProgress(s, now);
  }

  lemma FirstInTime(s: State, i: nat, replies: seq<Reply>, now: real, notes: Times, m: Times, timeout: real)
      returns (t: State, raised: bool)
    requires Core(s) && i < |s.workers| <= |replies| && s.config.queueTimeout == Some(timeout)
    requires Timed(s, now) && now <= replies[i].at && Stamps(s.pending, m) && InTime(notes, m, timeout)
    ensures (t, raised) == PollWorker(s, i, replies[i]) && Core(t) && |t.workers| == |s.workers| && t.config == s.config
    ensures Timed(t, replies[i].at) && Stamps(t.pending, m) && InTime(NoteDispatches(s, t, replies[i].at, notes), m, timeout)
  {
    t, raised := PollWorker(s, i, replies[i]).0, PollWorker(s, i, replies[i]).1;
    PollWorkerKeeps(s, i, replies[i]);
    TimedLater(s, now, replies[i].at);
    VisitInTime(s, i, replies[i], notes, m, timeout);
    VisitStamped(s, i, replies[i], m);
  }

  lemma VisitStamped(s: State, i: nat, reply: Reply, m: Times)
    requires i < |s.workers| && Timed(s, reply.at) && Stamps(s.pending, m)
    ensures var t := PollWorker(s, i, reply).0; Timed(t, reply.at) && Stamps(t.pending, m)
  {
    var t := VisitSuffix(s, i, reply);
    SuffixStamped(s, t, reply.at, m);
  }

  lemma SuffixStamped(s: State, t: State, now: real, m: Times)
    requires Timed(s, now) && Stamps(s.pending, m)
    requires |t.pending| <= |s.pending| && t.pending == s.pending[|s.pending| - |t.pending|..]
    ensures Timed(t, now) && Stamps(t.pending, m)
  {
    SuffixTimed(s, t, now);
    SuffixStamps(s.pending, t.pending, m);
  }

  lemma {:induction false} VisitsInTime(s: State, i: nat, replies: seq<Reply>, now: real, notes: Times, m: Times, timeout: real)
    requires Core(s) && i <= |s.workers| <= |replies| && s.config.queueTimeout == Some(timeout)
    requires Timed(s, now) && Ascending(replies[i..], now) && Stamps(s.pending, m) && InTime(notes, m, timeout)
    ensures InTime(VisitTimes(s, i, replies, notes), m, timeout)
    decreases |s.workers| - i
  {
    if i < |s.workers| {
      assert replies[i..][0] == replies[i] && replies[i..][1..] == replies[i + 1..];
      var t, raised := FirstInTime(s, i, replies, now, notes, m, timeout);
      if !raised { VisitsInTime(t, i + 1, replies, replies[i].at, NoteDispatches(s, t, replies[i].at, notes), m, timeout); }
    }
  }

  /** Whatever a poll takes from the queue and dispatches had, at the reading of that visit, waited less than the queue
      timeout. */
  lemma ServedInTime(s: State, ops: seq<Op>, start: real, now: real, replies: seq<Reply>, timeout: real)
    requires Init(s) && s.config.queueTimeout == Some(timeout) && |s.workers| <= |replies|
    requires AllFit(ops, |s.workers|) && WellTimed(ops, start) && LastClock(ops, start) <= now && Ascending(replies, now)
    ensures InTime(OpTimes(Run(s, ops), PollOp(now, replies), map[]), AdmissionTimes(s, ops, map[]), timeout)
  {
    var t, m := Run(s, ops), AdmissionTimes(s, ops, map[]);
    InitInv(s);
    RunKeeps(s, ops);
    RunKeepsStamps(s, ops, map[]);
    RunTimed(s, ops, start);
    TimedLater(t, LastClock(ops, start), now);
    if Loops(t, now) {
      LoopsUnchanged(t, now);
      assert replies[0..] == replies;
      VisitsInTime(t, 0, replies, now, map[], m, timeout);
    }
  }
}
