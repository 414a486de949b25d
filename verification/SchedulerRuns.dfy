/** Theorems about whole runs of the scheduler. */
module SchedulerRuns {
  import opened Messages
  import opened WorkerModel
  import opened SchedulerSpec
  import opened SchedulerInvariants

  datatype Op =
    | SubmitOp(request: Request, now: real, broken: set<nat>)
    | PollOp(now: real, replies: seq<Reply>)
    | CancelOp(id: RequestId)
    | CloseOp

  // A poll has a reply ready for each of the `n` workers.
  predicate Fits(op: Op, n: nat) {
    op.PollOp? ==> n <= |op.replies|
  }

  predicate AllFit(ops: seq<Op>, n: nat) {
    forall k :: 0 <= k < |ops| ==> Fits(ops[k], n)
  }

  function Step(s: State, op: Op): (r: State)
    requires Fits(op, |s.workers|)
    ensures |r.workers| == |s.workers| && r.config == s.config
  {
    match op
    case SubmitOp(request, now, broken) => Submit(s, request, now, broken).0
    case PollOp(now, replies) => Poll(s, now, replies).0
    case CancelOp(id) => Cancel(s, id).0
    case CloseOp => Close(s)
  }

  function Run(s: State, ops: seq<Op>): (r: State)
    requires AllFit(ops, |s.workers|)
    ensures |r.workers| == |s.workers| && r.config == s.config
    decreases |ops|
  {
    if ops == [] then s else Run(Step(s, ops[0]), ops[1..])
  }

  /* ---- Conservation ---- */

  lemma StepKeeps(s: State, op: Op)
    requires Inv(s) && Fits(op, |s.workers|)
    ensures Inv(Step(s, op))
  {
    match op
    case SubmitOp(request, now, broken) => SubmitKeeps(s, request, now, broken);
    case PollOp(now, replies) => PollKeeps(s, now, replies);
    case CancelOp(id) => CancelKeeps(s, id);
    case CloseOp => CloseKeeps(s);
  }

  lemma {:induction false} RunKeeps(s: State, ops: seq<Op>)
    requires Inv(s) && AllFit(ops, |s.workers|)
    ensures Inv(Run(s, ops))
    decreases |ops|
  {
    if ops != [] {
      StepKeeps(s, ops[0]);
      RunKeeps(Step(s, ops[0]), ops[1..]);
    }
  }

  /** After any run, whatever the workers, pipes and clock did, each submitted id is in exactly one
      of: the queue, a busy worker, the terminal reports, the dropped ids.  So no id is reported twice. */
  lemma RequestsAreConserved(s: State, ops: seq<Op>, id: RequestId)
    requires Init(s) && AllFit(ops, |s.workers|)
    ensures var r := Run(s, ops);
      InQueue(r.pending, id) + Running(r.workers, id) + Reported(r.log.reports, id) + Occurrences(r.log.dropped, id)
      == if id in r.submitted then 1 else 0
  {
    InitInv(s);
    RunKeeps(s, ops);
    assert Accounted(Run(s, ops), id) == if id in Run(s, ops).submitted then 1 else 0;
  }

  /* ---- Which requests are dropped ---- */

  // No message ends a request without naming it.
  predicate Named(replies: seq<Reply>) {
    forall k :: 0 <= k < |replies| && replies[k].read.Got? && Terminal(replies[k].read.message.kind) ==>
      replies[k].read.message.requestId.Some?
  }

  predicate Unbroken(replies: seq<Reply>) {
    forall k :: 0 <= k < |replies| ==> replies[k].broken == {}
  }

  lemma {:induction false} ExpiryDropsNothing(s: State, now: real, timeout: real)
    ensures ExpireHeads(s, now, timeout).log.dropped == s.log.dropped
    decreases |s.pending|
  {
    if s.pending != [] && Overdue(s.pending[0], now, timeout) {
      ExpiryDropsNothing(RetireHead(s, Failure(FromScheduler, s.pending[0].request.id, QueueTimeout)), now, timeout);
    }
  }

  lemma {:induction false} FailingDropsNothing(s: State)
    ensures FailHeads(s).log.dropped == s.log.dropped
    decreases |s.pending|
  {
    if s.pending != [] {
      FailingDropsNothing(RetireHead(s, Failure(FromScheduler, s.pending[0].request.id, NoHealthyWorker)));
    }
  }

  lemma {:induction false} ActiveExpiryDropsNothing(s: State, i: nat, now: real, timeout: real)
    requires i <= |s.workers|
    ensures ExpireActiveFrom(s, i, now, timeout).log.dropped == s.log.dropped
    decreases |s.workers| - i
  {
    if i < |s.workers| { ActiveExpiryDropsNothing(ExpireWorker(s, i, now, timeout), i + 1, now, timeout); }
  }

  lemma ExpireDropsNothing(s: State, now: real)
    ensures Expire(s, now).log.dropped == s.log.dropped
  {
    if s.config.maxInference.Some? {
      ActiveExpiryDropsNothing(s, 0, now, s.config.maxInference.value);
      FailingDropsNothing(ExpireActiveFrom(s, 0, now, s.config.maxInference.value));
    }
    if s.config.queueTimeout.Some? {
      ExpiryDropsNothing(ExpireActive(s, now), now, s.config.queueTimeout.value);
    }
  }

  // A dispatch raises exactly when it loses one queued request.
  lemma {:induction false} DispatchDrops(s: State, now: real, broken: set<nat>)
    ensures var (r, raised) := DispatchLoop(s, now, broken);
      |r.log.dropped| == |s.log.dropped| + (if raised then 1 else 0) && (broken == {} ==> !raised)
    decreases |s.pending|
  {
    var i := FirstReady(s.workers);
    if s.pending != [] && BelowCap(s) && i < |s.workers| && i !in broken {
      DispatchDrops(AssignHead(s, i, now), now, broken);
    }
  }

  // The faults under which a step can drop a request: an id-less end, a failed send, a shutdown.
  predicate FaultFree(op: Op) {
    && !op.CloseOp?
    && (op.PollOp? ==> Named(op.replies) && Unbroken(op.replies))
  }

  lemma CancelDropsNothing(s: State, id: RequestId)
    ensures Cancel(s, id).0.log.dropped == s.log.dropped
  {
    var i := HolderFrom(s, 0, id);
    if i < |s.workers| {
      var (w, cancelled) := CancelActive(s.workers[i]);
      FailingDropsNothing(Record(Release(s, i, w), Message(Cancelled, FromWorker(i), cancelled, StageActive, 0)));
    }
  }

  function SubmitAt0(id: RequestId): seq<Op> {
    [SubmitOp(Request(id, false, 0), 0.0, {})]
  }

  // Submissions and polls in which every end names its request.
  predicate NoClose(ops: seq<Op>) {
    forall k :: 0 <= k < |ops| ==> !ops[k].CloseOp? && (ops[k].PollOp? ==> Named(ops[k].replies))
  }

  /** The hypothesis on sends is needed: one worker ends request 1, its pipe then rejects queued
      request 2, and 2 is in no collection, never to be reported. */
  lemma FailedSendLosesRequest() returns (s0: State, ops: seq<Op>)
    ensures Init(s0) && AllFit(ops, |s0.workers|) && Run(s0, ops).log.dropped == [2]
    ensures NoClose(ops)
  {
    s0 := OneReady(None);
    var submits, s2 := TwoSubmitted(s0);
    var poll := LosingPoll(s2);
    ops := submits + poll;
    RunConcat(s0, submits, poll);
  }

  lemma RunOne(s: State, op: Op)
    requires Fits(op, |s.workers|)
    ensures Run(s, [op]) == Step(s, op)
  {
    assert [op][1..] == [];
  }

  lemma {:induction false} RunConcat(s: State, xs: seq<Op>, ys: seq<Op>)
    requires AllFit(xs, |s.workers|) && AllFit(ys, |s.workers|)
    ensures AllFit(xs + ys, |s.workers|) && Run(s, xs + ys) == Run(Run(s, xs), ys)
    decreases |xs|
  {
    if xs == [] {
      assert xs + ys == ys;
    } else {
      assert (xs + ys)[0] == xs[0] && (xs + ys)[1..] == xs[1..] + ys;
      RunConcat(Step(s, xs[0]), xs[1..], ys);
    }
  }

  // One ready worker, room for one queued request, no timeouts.
  function OneReady(cap: Option<nat>): State {
    State(Config(1, None, None, cap), [Worker(WorkerState.Ready, None)], [], map[], map[], {}, [], false,
          Log([], [], [], [], [], []))
  }

  lemma TwoSubmitted(s0: State) returns (ops: seq<Op>, s2: State)
    requires s0 == OneReady(None)
    ensures AllFit(ops, 1) && NoClose(ops) && s2 == Run(s0, ops)
    ensures s2.workers == [Worker(Busy, Some(1))] && s2.active == map[0 := 1] && s2.events == []
    ensures s2.pending == [Pending(Request(2, false, 0), 0.0)] && s2.log.dropped == [] && s2.config == s0.config
  {
    var s1 := Step(s0, SubmitAt0(1)[0]);
    assert FirstReady(s0.workers) == 0;
    assert s1.workers == [Worker(Busy, Some(1))];
    s2 := Step(s1, SubmitAt0(2)[0]);
    assert Healthy(s1.workers[0]);
    RunOne(s0, SubmitAt0(1)[0]);
    RunOne(s1, SubmitAt0(2)[0]);
    ops := SubmitAt0(1) + SubmitAt0(2);
    RunConcat(s0, SubmitAt0(1), SubmitAt0(2));
  }

  function FirstDone(): Message {
    Message(Kind.Result, FromWorker(0), Some(1), Plain, 0)
  }

  lemma LosingPoll(s: State) returns (ops: seq<Op>)
    requires s.workers == [Worker(Busy, Some(1))] && s.active == map[0 := 1] && s.events == []
    requires s.pending == [Pending(Request(2, false, 0), 0.0)] && s.log.dropped == []
    requires s.config == Config(1, None, None, None)
    ensures AllFit(ops, 1) && NoClose(ops) && Run(s, ops).log.dropped == [2]
  {
    var done := FirstDone();
    var w := Worker(WorkerState.Ready, None);
    var t := Finish(s, 0, w, done);
    assert Receive(s.workers[0], Got(done)) == (w, Delivered(done));
    assert FirstReady(t.workers) == 0;
    assert DispatchPending(t, 0.0, {0}) == (LoseHead(t, 0), true);
    assert PollWorker(s, 0, Reply(Got(done), 0.0, {0})) == (LoseHead(t, 0), true);
    assert Expire(s, 0.0) == s;
    ops := [PollOp(0.0, [Reply(Got(done), 0.0, {0})])];
    RunOne(s, ops[0]);
  }
}
