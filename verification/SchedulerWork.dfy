/** Work only goes down: a measure that no step but an admission raises, and that every end of a request lowers. */
module SchedulerWork {
  import opened Messages
  import opened WorkerModel
  import opened SchedulerSpec
  import opened SchedulerInvariants
  import opened SchedulerRuns

  // A queued request has two steps to go, a running one one.
  function Work(s: State): nat {
    2 * |s.pending| + |s.active|
  }

  function EndsIn(ms: seq<Message>): nat {
    if ms == [] then 0 else EndsIn(ms[..|ms| - 1]) + if TerminalId(ms[|ms| - 1]).Some? then 1 else 0
  }

  // How many requests have left, with a report or without.
  function Left(s: State): nat {
    EndsIn(s.log.reports) + |s.log.dropped|
  }

  // What has left was paid for by work.
  ghost predicate Spends(s: State, r: State) {
    Work(r) + Left(r) <= Work(s) + Left(s)
  }

  lemma EndsAppend(ms: seq<Message>, m: Message)
    ensures EndsIn(ms + [m]) == EndsIn(ms) + if TerminalId(m).Some? then 1 else 0
  {
    assert (ms + [m])[..|ms|] == ms;
  }

  lemma Freed(s: State, i: nat)
    ensures |s.active - {i}| == |s.active| - if i in s.active then 1 else 0
  {
    assert (s.active - {i}).Keys == s.active.Keys - {i};
  }

  lemma RetireSpends(s: State, m: Message)
    requires s.pending != []
    ensures Spends(s, RetireHead(s, m))
  {
    EndsAppend(s.log.reports, m);
  }

  lemma ReleaseSpends(s: State, i: nat, w: Worker, m: Message)
    requires i < |s.workers| && i in s.active
    ensures Spends(s, Emit(Release(s, i, w), m)) && Spends(s, Record(Release(s, i, w), m))
  {
    EndsAppend(s.log.reports, m);
    Freed(s, i);
  }

  lemma FinishSpends(s: State, i: nat, w: Worker, m: Message)
    requires i < |s.workers| && i in s.active
    ensures Spends(s, Finish(s, i, w, m))
  {
    EndsAppend(s.log.reports, m);
    Freed(s, i);
  }

  lemma AssignSpends(s: State, i: nat, now: real)
    requires s.pending != [] && i < |s.workers| && i !in s.active
    ensures Spends(s, AssignHead(s, i, now)) && Spends(s, LoseHead(s, i))
  {
    var id := s.pending[0].request.id;
    assert s.active[i := id].Keys == s.active.Keys + {i};
  }

  lemma {:induction false} ExpireHeadsSpends(s: State, now: real, timeout: real)
    ensures Spends(s, ExpireHeads(s, now, timeout))
    decreases |s.pending|
  {
    if s.pending != [] && Overdue(s.pending[0], now, timeout) {
      var m := Failure(FromScheduler, s.pending[0].request.id, QueueTimeout);
      RetireSpends(s, m);
      ExpireHeadsSpends(RetireHead(s, m), now, timeout);
    }
  }

  lemma ExpirePendingSpends(s: State, now: real)
    ensures Spends(s, ExpirePending(s, now))
  {
    if s.config.queueTimeout.Some? { ExpireHeadsSpends(s, now, s.config.queueTimeout.value); }
  }

  lemma {:induction false} FailHeadsSpends(s: State)
    ensures Spends(s, FailHeads(s))
    decreases |s.pending|
  {
    if s.pending != [] {
      var m := Failure(FromScheduler, s.pending[0].request.id, NoHealthyWorker);
      RetireSpends(s, m);
      FailHeadsSpends(RetireHead(s, m));
    }
  }

  lemma {:induction false} CancelHeadsSpends(s: State)
    ensures Spends(s, CancelHeads(s))
    decreases |s.pending|
  {
    if s.pending != [] {
      var m := Message(Cancelled, FromScheduler, Some(s.pending[0].request.id), StageShutdown, 0);
      RetireSpends(s, m);
      CancelHeadsSpends(RetireHead(s, m));
    }
  }

  lemma {:induction false} ExpireActiveFromSpends(s: State, i: nat, now: real, timeout: real)
    requires i <= |s.workers|
    ensures Spends(s, ExpireActiveFrom(s, i, now, timeout))
    decreases |s.workers| - i
  {
    if i < |s.workers| {
      if i in s.active {
        ReleaseSpends(s, i, CancelActive(s.workers[i]).0, Failure(FromWorker(i), s.active[i], InferenceTimeout));
      }
      ExpireActiveFromSpends(ExpireWorker(s, i, now, timeout), i + 1, now, timeout);
    }
  }

  lemma ExpireSpends(s: State, now: real)
    ensures Spends(s, Expire(s, now))
  {
    if s.config.maxInference.Some? {
      ExpireActiveFromSpends(s, 0, now, s.config.maxInference.value);
      FailHeadsSpends(ExpireActiveFrom(s, 0, now, s.config.maxInference.value));
    }
    ExpirePendingSpends(ExpireActive(s, now), now);
  }

  lemma {:induction false} DispatchLoopSpends(s: State, now: real, broken: set<nat>)
    requires Core(s)
    ensures Spends(s, DispatchLoop(s, now, broken).0)
    decreases |s.pending|
  {
    var i := FirstReady(s.workers);
    if s.pending != [] && BelowCap(s) && i < |s.workers| {
      AssignSpends(s, i, now);
      if i !in broken {
        AssignHeadKeeps(s, i, now);
        DispatchLoopSpends(AssignHead(s, i, now), now, broken);
      }
    }
  }

  lemma PollWorkerSpends(s: State, i: nat, reply: Reply)
    requires Core(s) && i < |s.workers|
    ensures Spends(s, PollWorker(s, i, reply).0)
  {
    if i in s.active {
      var (w, received) := Receive(s.workers[i], reply.read);
      match received
      case NotBusy =>
      case TimedOut =>
      case Broke(code) => ReleaseSpends(s, i, w, Failure(FromWorker(i), s.active[i], code));
      case Delivered(m) =>
        if Terminal(m.kind) { EndSpends(s, i, w, m, reply.at, reply.broken); } else { EndsAppend(s.log.reports, m); }
    }
  }

  lemma EndSpends(s: State, i: nat, w: Worker, m: Message, at: real, broken: set<nat>)
    requires Core(s) && i in s.active && i < |s.workers| && w.state.Ready?
    requires Terminal(m.kind) && m.requestId in {None, Some(s.active[i])}
    ensures Spends(s, DispatchPending(Finish(s, i, w, m), at, broken).0)
  {
    FinishSpends(s, i, w, m);
    FinishKeeps(s, i, w, m);
    DispatchSpends(Finish(s, i, w, m), at, broken);
  }

  lemma DispatchSpends(s: State, at: real, broken: set<nat>)
    requires Core(s)
    ensures Spends(s, DispatchPending(s, at, broken).0)
  {
    ExpirePendingSpends(s, at);
    ExpirePendingKeeps(s, at);
    DispatchLoopSpends(ExpirePending(s, at), at, broken);
  }

  lemma {:induction false} PollFromSpends(s: State, i: nat, replies: seq<Reply>)
    requires Core(s) && i <= |s.workers| <= |replies|
    ensures Spends(s, PollFrom(s, i, replies).0)
    decreases |s.workers| - i
  {
    if i < |s.workers| {
      PollWorkerSpends(s, i, replies[i]);
      PollWorkerKeeps(s, i, replies[i]);
      var (t, raised) := PollWorker(s, i, replies[i]);
      if !raised { PollFromSpends(t, i + 1, replies); }
    }
  }

  lemma PollSpends(s: State, now: real, replies: seq<Reply>)
    requires Core(s) && |s.workers| <= |replies|
    ensures Spends(s, Poll(s, now, replies).0)
  {
    var s1 := Expire(s, now);
    ExpireSpends(s, now);
    ExpireKeeps(s, now);
    PollFromSpends(s1, 0, replies);
    FailHeadsSpends(PollFrom(s1, 0, replies).0);
  }

  lemma CancelSpends(s: State, id: RequestId)
    ensures Spends(s, Cancel(s, id).0)
  {
    var i := HolderFrom(s, 0, id);
    if IndexOf(s.pending, id) < |s.pending| {
      EndsAppend(s.log.reports, Cancel(s, id).1.event);
    } else if i < |s.workers| {
      var (w, cancelled) := CancelActive(s.workers[i]);
      var m := Message(Cancelled, FromWorker(i), cancelled, StageActive, 0);
      ReleaseSpends(s, i, w, m);
      FailHeadsSpends(Record(Release(s, i, w), m));
    }
  }

  lemma {:induction false} CloseWorkersSpends(s: State, i: nat)
    requires i <= |s.workers|
    ensures Spends(s, CloseWorkersFrom(s, i))
    decreases |s.workers| - i
  {
    if i < |s.workers| {
      CloseWorkerSpends(s, i);
      CloseWorkersSpends(CloseWorker(s, i), i + 1);
      SpendsBoth(s, CloseWorker(s, i), CloseWorkersFrom(s, i));
    }
  }

  lemma SpendsBoth(s: State, t: State, r: State)
    requires Spends(s, t) && Spends(t, r)
    ensures Spends(s, r)
  {
  }

  lemma CloseWorkerSpends(s: State, i: nat)
    requires i < |s.workers|
    ensures Spends(s, CloseWorker(s, i))
  {
    Freed(s, i);
  }

  lemma CloseSpends(s: State)
    ensures Spends(s, Close(s))
  {
    if !s.closed {
      CancelHeadsSpends(s.(closed := true));
      CloseWorkersSpends(CancelHeads(s.(closed := true)), 0);
    }
  }

  /** No step but an admission raises the work, and each request that leaves, in whatever way, lowers it. */
  lemma StepSpends(s: State, op: Op)
    requires Inv(s) && Fits(op, |s.workers|) && !op.SubmitOp?
    ensures Spends(s, Step(s, op))
  {
    match op
    case PollOp(now, replies) => PollSpends(s, now, replies);
    case CancelOp(id) => CancelSpends(s, id);
    case CloseOp => CloseSpends(s);
  }

  /** In a run without admissions no more requests leave than the work there was to begin with. */
  lemma {:induction false} RunSpends(s: State, ops: seq<Op>)
    requires Inv(s) && AllFit(ops, |s.workers|) && forall k :: 0 <= k < |ops| ==> !ops[k].SubmitOp?
    ensures Work(Run(s, ops)) + Left(Run(s, ops)) <= Work(s) + Left(s)
    decreases |ops|
  {
    if ops != [] {
      StepSpends(s, ops[0]);
      StepKeeps(s, ops[0]);
      RunSpends(Step(s, ops[0]), ops[1..]);
    }
  }
}
