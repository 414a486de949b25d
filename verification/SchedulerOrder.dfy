/** The order in which requests are served and expire. */
module SchedulerOrder {
  import opened Messages
  import opened WorkerModel
  import opened SchedulerSpec
  import opened SchedulerInvariants
  import opened SchedulerProgress
  import opened SchedulerRuns

  /* ---- First in, first out ---- */

  // Requests that waited are dispatched in the order they were queued, and those still waiting are in order too.
  ghost predicate QueueFifo(s: State) {
    Subseq(QueueOrder(s), s.log.queued)
  }

  // The same for all requests, including those that `submit` hands straight to a worker.
  ghost predicate ServiceFifo(s: State) {
    Subseq(ServiceOrder(s), s.log.admitted)
  }

  // The queue loses requests from its front only, and no order is disturbed.
  ghost predicate OrderStep(s: State, r: State) {
    && |r.pending| <= |s.pending| && r.pending == s.pending[|s.pending| - |r.pending|..]
    && r.log.admitted == s.log.admitted && r.log.queued == s.log.queued
    && Subseq(ServiceOrder(r), ServiceOrder(s)) && Subseq(QueueOrder(r), QueueOrder(s))
  }

  lemma OrderTrans(s: State, t: State, r: State)
    requires OrderStep(s, t) && OrderStep(t, r)
    ensures OrderStep(s, r)
  {
    SubseqTrans(ServiceOrder(r), ServiceOrder(t), ServiceOrder(s));
    SubseqTrans(QueueOrder(r), QueueOrder(t), QueueOrder(s));
  }

  // They differ in neither order, nor in what is recorded of them.
  predicate SameOrders(s: State, r: State) {
    && r.pending == s.pending && r.log.dispatched == s.log.dispatched && r.log.dequeued == s.log.dequeued
    && r.log.admitted == s.log.admitted && r.log.queued == s.log.queued
  }

  lemma OrderSame(s: State, r: State)
    requires SameOrders(s, r)
    ensures OrderStep(s, r)
  {
    assert ServiceOrder(r) == ServiceOrder(s) && QueueOrder(r) == QueueOrder(s);
    SubseqRefl(ServiceOrder(s));
    SubseqRefl(QueueOrder(s));
  }

  lemma PollWorkerOrder(s: State, i: nat, reply: Reply)
    requires i < |s.workers|
    ensures OrderStep(s, PollWorker(s, i, reply).0)
  {
    OrderSame(s, s);
    if i in s.active {
      var (w, received) := Receive(s.workers[i], reply.read);
      if received.Delivered? && Terminal(received.message.kind) {
        var t := Finish(s, i, w, received.message);
        OrderSame(s, t);
        DispatchPendingProgress(t, reply.at, reply.broken);
        OrderTrans(s, t, DispatchPending(t, reply.at, reply.broken).0);
      } else {
        OrderSame(s, PollWorker(s, i, reply).0);
      }
    }
  }

  // What holds of every visit, and is kept when visits follow each other, holds of the loop.
  lemma {:induction false} LoopRelates(R: (State, State) -> bool, s: State, i: nat, replies: seq<Reply>)
    requires forall a :: R(a, a)
    requires forall a, b, c :: R(a, b) && R(b, c) ==> R(a, c)
    requires forall a: State, k: nat, reply: Reply :: k < |a.workers| ==> R(a, PollWorker(a, k, reply).0)
    requires i <= |s.workers| <= |replies|
    ensures R(s, PollFrom(s, i, replies).0)
    decreases |s.workers| - i
  {
    if i < |s.workers| {
      var t := PollWorker(s, i, replies[i]).0;
      LoopRelates(R, t, i + 1, replies);
    }
  }

  lemma PollFromOrder(s: State, i: nat, replies: seq<Reply>)
    requires i <= |s.workers| <= |replies|
    ensures OrderStep(s, PollFrom(s, i, replies).0)
  {
    var R := (a: State, b: State) => OrderStep(a, b);
    forall a ensures R(a, a) { OrderSame(a, a); }
    forall a, b, c | R(a, b) && R(b, c) ensures R(a, c) { OrderTrans(a, b, c); }
    forall a: State, k: nat, reply: Reply | k < |a.workers| ensures R(a, PollWorker(a, k, reply).0) { PollWorkerOrder(a, k, reply); }
    LoopRelates(R, s, i, replies);
  }

  lemma PollOrder(s: State, now: real, replies: seq<Reply>)
    requires |s.workers| <= |replies|
    ensures OrderStep(s, Poll(s, now, replies).0)
  {
    var s1 := Expire(s, now);
    ExpireProgress(s, now);
    if s1.events != [] { DrainOrder(s, s1); } else { LoopOrder(s, s1, replies); }
  }

  lemma DrainOrder(s: State, r: State)
    requires OrderStep(s, r)
    ensures OrderStep(s, Drain(r))
  {
  }

  // The part of a poll after its first expiry.
  lemma LoopOrder(s: State, t: State, replies: seq<Reply>)
    requires OrderStep(s, t) && |t.workers| <= |replies|
    ensures var (u, raised) := PollFrom(t, 0, replies);
      OrderStep(s, u) && OrderStep(s, Drain(FailPendingWithoutHealthy(u)))
  {
    var u := PollFrom(t, 0, replies).0;
    PollFromOrder(t, 0, replies);
    OrderTrans(s, t, u);
    FailPendingProgress(u);
    OrderTrans(s, u, FailPendingWithoutHealthy(u));
    DrainOrder(s, FailPendingWithoutHealthy(u));
  }

  // Cancelling a request that is not queued.
  lemma CancelActiveOrder(s: State, id: RequestId)
    requires IndexOf(s.pending, id) == |s.pending|
    ensures OrderStep(s, Cancel(s, id).0)
  {
    var i := HolderFrom(s, 0, id);
    OrderSame(s, s);
    if i < |s.workers| {
      var (w, cancelled) := CancelActive(s.workers[i]);
      var t := Record(Release(s, i, w), Message(Cancelled, FromWorker(i), cancelled, StageActive, 0));
      OrderSame(s, t);
      FailPendingProgress(t);
      OrderTrans(s, t, FailPendingWithoutHealthy(t));
    }
  }

  // A queued request may leave from the middle.
  lemma CutOrder(before: seq<RequestId>, pending: seq<Pending>, k: nat)
    requires k < |pending|
    ensures Subseq(before + Ids(pending[..k] + pending[k + 1..]), before + Ids(pending))
  {
    var ids := Ids(pending);
    SubseqCut(before + ids[..k], ids[k], ids[k + 1..]);
    assert ids == ids[..k] + [ids[k]] + ids[k + 1..];
    assert Ids(pending[..k] + pending[k + 1..]) == ids[..k] + ids[k + 1..];
    assert before + ids == before + ids[..k] + [ids[k]] + ids[k + 1..];
    assert before + (ids[..k] + ids[k + 1..]) == before + ids[..k] + ids[k + 1..];
  }

  lemma CancelOrder(s: State, id: RequestId)
    ensures var r := Cancel(s, id).0;
      Subseq(ServiceOrder(r), ServiceOrder(s)) && Subseq(QueueOrder(r), QueueOrder(s))
      && r.log.admitted == s.log.admitted && r.log.queued == s.log.queued
  {
    var k := IndexOf(s.pending, id);
    if k < |s.pending| { CancelQueuedOrder(s, id, k); } else { CancelActiveOrder(s, id); }
  }

  lemma CancelQueuedOrder(s: State, id: RequestId, k: nat)
    requires k == IndexOf(s.pending, id) < |s.pending|
    ensures var r := Cancel(s, id).0;
      Subseq(ServiceOrder(r), ServiceOrder(s)) && Subseq(QueueOrder(r), QueueOrder(s))
      && r.log.admitted == s.log.admitted && r.log.queued == s.log.queued
  {
    CancelQueuedIs(s, id, k);
    CutOrder(s.log.dispatched, s.pending, k);
    CutOrder(s.log.dequeued, s.pending, k);
  }

  lemma CancelQueuedIs(s: State, id: RequestId, k: nat)
    requires k == IndexOf(s.pending, id) < |s.pending|
    ensures var r := Cancel(s, id).0;
      && r.pending == s.pending[..k] + s.pending[k + 1..]
      && r.log == s.log.(reports := r.log.reports)
  {
  }

  lemma {:induction false} CloseWorkersOrder(s: State, i: nat)
    requires i <= |s.workers|
    ensures SameOrders(s, CloseWorkersFrom(s, i))
    decreases |s.workers| - i
  {
    if i < |s.workers| { CloseWorkersOrder(CloseWorker(s, i), i + 1); }
  }

  lemma CloseOrder(s: State)
    ensures OrderStep(s, Close(s))
  {
    if s.closed {
      OrderSame(s, s);
    } else {
      var s0, s1 := ClosingSteps(s);
      OrderSame(s, s0);
      OrderSame(s1, Close(s));
      OrderTrans(s, s0, s1);
      OrderTrans(s, s1, Close(s));
    }
  }

  // The queue is emptied, and then nothing more happens to it.
  lemma ClosingSteps(s: State) returns (s0: State, s1: State)
    requires !s.closed
    ensures SameOrders(s, s0) && OrderStep(s0, s1) && SameOrders(s1, Close(s))
  {
    s0 := s.(closed := true);
    s1 := CancelHeads(s0);
    CancelHeadsProgress(s0);
    CloseWorkersOrder(s1, 0);
  }

  // A direct dispatch puts the new id before everything that waits.
  lemma SubmitServiceOrder(s: State, request: Request, now: real, broken: set<nat>)
    ensures var (r, outcome) := Submit(s, request, now, broken);
      match outcome
      case Rejected(_) => ServiceOrder(r) == ServiceOrder(s) && QueueOrder(r) == QueueOrder(s)
      case Dispatched => ServiceOrder(r) == s.log.dispatched + [request.id] + Ids(s.pending) && QueueOrder(r) == QueueOrder(s)
      case Queued => ServiceOrder(r) == ServiceOrder(s) + [request.id] && QueueOrder(r) == QueueOrder(s) + [request.id]
  {
    assert Ids(s.pending + [Pending(request, now)]) == Ids(s.pending) + [request.id];
  }

  lemma SubmitQueueFifo(s: State, request: Request, now: real, broken: set<nat>)
    requires QueueFifo(s)
    ensures QueueFifo(Submit(s, request, now, broken).0)
  {
    SubmitServiceOrder(s, request, now, broken);
    SubseqAppend(QueueOrder(s), s.log.queued, request.id);
  }

  lemma StepQueueFifo(s: State, op: Op)
    requires QueueFifo(s) && Fits(op, |s.workers|)
    ensures QueueFifo(Step(s, op))
  {
    var r := Step(s, op);
    match op
    case SubmitOp(request, now, broken) => SubmitQueueFifo(s, request, now, broken);
    case PollOp(now, replies) => PollOrder(s, now, replies); SubseqTrans(QueueOrder(r), QueueOrder(s), s.log.queued);
    case CancelOp(id) => CancelOrder(s, id); SubseqTrans(QueueOrder(r), QueueOrder(s), s.log.queued);
    case CloseOp => CloseOrder(s); SubseqTrans(QueueOrder(r), QueueOrder(s), s.log.queued);
  }

  lemma {:induction false} QueueFifoFrom(s: State, ops: seq<Op>)
    requires QueueFifo(s) && AllFit(ops, |s.workers|)
    ensures QueueFifo(Run(s, ops))
    decreases |ops|
  {
    if ops != [] {
      StepQueueFifo(s, ops[0]);
      QueueFifoFrom(Step(s, ops[0]), ops[1..]);
    }
  }

  lemma {:induction false} SubseqPrefix(x: seq<RequestId>, y: seq<RequestId>)
    ensures Subseq(x, x + y)
  {
    if y == [] {
      assert x + y == x;
      SubseqRefl(x);
    } else {
      assert (x + y)[..|x + y| - 1] == x + y[..|y| - 1];
      SubseqPrefix(x, y[..|y| - 1]);
    }
  }

  /** Over every run, with any concurrency cap and any fault, the requests that waited are
      dispatched in the order in which they were queued. */
  lemma QueueIsFifo(s: State, ops: seq<Op>)
    requires Init(s) && AllFit(ops, |s.workers|)
    ensures Subseq(Run(s, ops).log.dequeued, Run(s, ops).log.queued)
  {
    QueueFifoFrom(s, ops);
    var r := Run(s, ops);
    SubseqPrefix(r.log.dequeued, Ids(r.pending));
    SubseqTrans(r.log.dequeued, QueueOrder(r), r.log.queued);
  }

  // If `x` is new then nothing can follow it.
  lemma {:induction false} SubseqLast(a: seq<RequestId>, x: RequestId, y: seq<RequestId>, b: seq<RequestId>)
    requires x !in b && Subseq(a + [x] + y, b + [x])
    ensures y == []
  {
    assert (b + [x])[..|b|] == b;
    if y != [] {
      var c := a + [x] + y;
      assert c[|a|] == x && x in c && x in c[..|c| - 1];
      if Subseq(c[..|c| - 1], b) { SubseqMember(c[..|c| - 1], b, x); }
      if Subseq(c, b) { SubseqMember(c, b, x); }
    }
  }

  lemma {:induction false} SubseqMember(a: seq<RequestId>, b: seq<RequestId>, x: RequestId)
    requires Subseq(a, b) && x in a
    ensures x in b
    decreases |b|
  {
    if a[|a| - 1] == b[|b| - 1] && Subseq(a[..|a| - 1], b[..|b| - 1]) {
      if x in a[..|a| - 1] { SubseqMember(a[..|a| - 1], b[..|b| - 1], x); }
    } else {
      SubseqMember(a, b[..|b| - 1], x);
    }
  }

  lemma {:induction false} NotListed(ids: seq<RequestId>, id: RequestId)
    requires Occurrences(ids, id) == 0
    ensures id !in ids
  {
    if ids != [] { NotListed(ids[..|ids| - 1], id); }
  }

  // The guard of a direct dispatch, with requests waiting.
  predicate Overtakes(s: State, request: Request, broken: set<nat>) {
    && !s.closed && request.id !in s.submitted && s.pending != []
    && FirstReady(s.workers) < |s.workers| && BelowCap(s) && FirstReady(s.workers) !in broken
  }

  /** `submit` breaks the service order exactly when requests wait, a worker is ready, the cap allows another request
      and the worker's pipe works. */
  lemma SubmitOvertakesIff(s: State, request: Request, now: real, broken: set<nat>)
    requires Inv(s) && ServiceFifo(s)
    ensures ServiceFifo(Submit(s, request, now, broken).0) <==> !Overtakes(s, request, broken)
  {
    var r, outcome := SubmitLeads(s, request, now, broken);
    if Overtakes(s, request, broken) {
      PastTheQueue(s, request.id, r);
    } else if !outcome.Rejected? {
      InTurn(s, request.id, r);
    }
  }

  lemma SubmitLeads(s: State, request: Request, now: real, broken: set<nat>) returns (r: State, outcome: Submitted)
    ensures (r, outcome) == Submit(s, request, now, broken)
    ensures outcome.Rejected? ==> ServiceOrder(r) == ServiceOrder(s) && r.log.admitted == s.log.admitted
    ensures !outcome.Rejected? ==> r.log.admitted == s.log.admitted + [request.id]
    ensures Overtakes(s, request, broken) ==> ServiceOrder(r) == s.log.dispatched + [request.id] + Ids(s.pending)
    ensures Overtakes(s, request, broken) ==> outcome.Dispatched?
    ensures !Overtakes(s, request, broken) && !outcome.Rejected? ==> ServiceOrder(r) == ServiceOrder(s) + [request.id]
  {
    r, outcome := Submit(s, request, now, broken).0, Submit(s, request, now, broken).1;
    SubmitServiceOrder(s, request, now, broken);
    if s.pending == [] { assert s.log.dispatched + [request.id] + Ids(s.pending) == ServiceOrder(s) + [request.id]; }
  }

  lemma InTurn(s: State, id: RequestId, r: State)
    requires ServiceFifo(s) && ServiceOrder(r) == ServiceOrder(s) + [id] && r.log.admitted == s.log.admitted + [id]
    ensures ServiceFifo(r)
  {
    SubseqAppend(ServiceOrder(s), s.log.admitted, id);
  }

  // A new request ahead of those that wait is out of order.
  lemma PastTheQueue(s: State, id: RequestId, r: State)
    requires Inv(s) && id !in s.submitted && s.pending != []
    requires ServiceOrder(r) == s.log.dispatched + [id] + Ids(s.pending) && r.log.admitted == s.log.admitted + [id]
    ensures !ServiceFifo(r)
  {
    assert Occurrences(s.log.admitted, id) == 0;
    NotListed(s.log.admitted, id);
    if Subseq(ServiceOrder(r), r.log.admitted) { SubseqLast(s.log.dispatched, id, Ids(s.pending), s.log.admitted); }
  }

  /* ---- Queue expiry ---- */

  // Enqueue times ascend and lie in the past.
  ghost predicate Timed(s: State, now: real) {
    && (forall j, k :: 0 <= j < k < |s.pending| ==> s.pending[j].enqueuedAt <= s.pending[k].enqueuedAt)
    && (forall k :: 0 <= k < |s.pending| ==> s.pending[k].enqueuedAt <= now)
  }

  function Clock(op: Op, now: real): real {
    if op.SubmitOp? then op.now else if op.PollOp? then op.now else now
  }

  // The clock does not run backwards between operations.
  predicate WellTimed(ops: seq<Op>, now: real) {
    ops == [] || (now <= Clock(ops[0], now) && WellTimed(ops[1..], Clock(ops[0], now)))
  }

  function LastClock(ops: seq<Op>, now: real): real {
    if ops == [] then now else LastClock(ops[1..], Clock(ops[0], now))
  }

  // The readings of a poll's visits do not run backwards either.
  predicate Ascending(replies: seq<Reply>, now: real) {
    replies == [] || (now <= replies[0].at && Ascending(replies[1..], replies[0].at))
  }

  function LastReading(replies: seq<Reply>, now: real): real {
    if replies == [] then now else LastReading(replies[1..], replies[0].at)
  }

  // No reading of the run is earlier than one before it.
  predicate Forward(ops: seq<Op>, now: real)
    decreases |ops|
  {
    ops == []
    || match ops[0]
       case SubmitOp(_, at, _) => now <= at && Forward(ops[1..], at)
       case PollOp(at, replies) => now <= at && Ascending(replies, at) && Forward(ops[1..], LastReading(replies, at))
       case _ => Forward(ops[1..], now)
  }

  lemma {:induction false} ReadingsAscend(replies: seq<Reply>, now: real)
    requires Ascending(replies, now)
    ensures now <= LastReading(replies, now)
  {
    if replies != [] { ReadingsAscend(replies[1..], replies[0].at); }
  }

  lemma {:induction false} ForwardIsTimed(ops: seq<Op>, now: real, before: real)
    requires Forward(ops, now) && before <= now
    ensures WellTimed(ops, before)
    decreases |ops|
  {
    if ops != [] {
      match ops[0]
      case SubmitOp(_, at, _) => ForwardIsTimed(ops[1..], at, at);
      case PollOp(at, replies) =>
        ReadingsAscend(replies, at);
        ForwardIsTimed(ops[1..], LastReading(replies, at), at);
      case _ => ForwardIsTimed(ops[1..], now, before);
    }
  }

  lemma SuffixTimed(s: State, r: State, now: real)
    requires Timed(s, now) && |r.pending| <= |s.pending| && r.pending == s.pending[|s.pending| - |r.pending|..]
    ensures Timed(r, now)
  {
  }

  lemma SubmitTimed(s: State, request: Request, now: real, broken: set<nat>)
    requires Timed(s, now)
    ensures Timed(Submit(s, request, now, broken).0, now)
  {
    var r := Submit(s, request, now, broken).0;
    assert r.pending == s.pending || r.pending == s.pending + [Pending(request, now)];
  }

  lemma CutTimed(s: State, k: nat, now: real)
    requires Timed(s, now) && k < |s.pending|
    ensures Timed(s.(pending := s.pending[..k] + s.pending[k + 1..]), now)
  {
  }

  lemma StepTimed(s: State, op: Op, now: real)
    requires Timed(s, now) && Fits(op, |s.workers|) && now <= Clock(op, now)
    ensures Timed(Step(s, op), Clock(op, now))
  {
    match op
    case SubmitOp(request, at, broken) => SubmitTimed(s, request, at, broken);
    case PollOp(at, replies) => PollTimed(s, at, replies, now);
    case CancelOp(id) => CancelTimed(s, id, now);
    case CloseOp => CloseTimed(s, now);
  }

  lemma PollTimed(s: State, at: real, replies: seq<Reply>, now: real)
    requires Timed(s, now) && now <= at && |s.workers| <= |replies|
    ensures Timed(Poll(s, at, replies).0, at)
  {
    PollOrder(s, at, replies);
    SuffixTimed(s, Poll(s, at, replies).0, now);
  }

  lemma CancelTimed(s: State, id: RequestId, now: real)
    requires Timed(s, now)
    ensures Timed(Cancel(s, id).0, now)
  {
    if IndexOf(s.pending, id) == |s.pending| {
      CancelActiveOrder(s, id);
      SuffixTimed(s, Cancel(s, id).0, now);
    } else {
      CutTimed(s, IndexOf(s.pending, id), now);
    }
  }

  lemma CloseTimed(s: State, now: real)
    requires Timed(s, now)
    ensures Timed(Close(s), now)
  {
    CloseOrder(s);
    SuffixTimed(s, Close(s), now);
  }

  lemma {:induction false} RunTimed(s: State, ops: seq<Op>, now: real)
    requires Timed(s, now) && AllFit(ops, |s.workers|) && WellTimed(ops, now)
    ensures Timed(Run(s, ops), LastClock(ops, now))
    decreases |ops|
  {
    if ops != [] {
      StepTimed(s, ops[0], now);
      RunTimed(Step(s, ops[0]), ops[1..], Clock(ops[0], now));
    }
  }

  function Fresh(pending: seq<Pending>, now: real, timeout: real): seq<Pending> {
    if pending == [] then []
    else (if now - pending[0].enqueuedAt >= timeout then [] else [pending[0]]) + Fresh(pending[1..], now, timeout)
  }

  function Expiries(pending: seq<Pending>, now: real, timeout: real): seq<Message> {
    if pending == [] then []
    else (if now - pending[0].enqueuedAt >= timeout then [Failure(FromScheduler, pending[0].request.id, QueueTimeout)] else [])
         + Expiries(pending[1..], now, timeout)
  }

  lemma {:induction false} AllFresh(pending: seq<Pending>, now: real, timeout: real)
    requires forall k :: 0 <= k < |pending| ==> !Overdue(pending[k], now, timeout)
    ensures Fresh(pending, now, timeout) == pending && Expiries(pending, now, timeout) == []
  {
    if pending != [] { AllFresh(pending[1..], now, timeout); }
  }

  // Looking only at the queue's head removes exactly the overdue requests, in order, when times ascend.
  lemma {:induction false} ExpireHeadsExact(s: State, now: real, timeout: real)
    requires Timed(s, now)
    ensures var r := ExpireHeads(s, now, timeout);
      r.pending == Fresh(s.pending, now, timeout) && r.events == s.events + Expiries(s.pending, now, timeout)
    decreases |s.pending|
  {
    if s.pending != [] && Overdue(s.pending[0], now, timeout) {
      var t := RetireHead(s, Failure(FromScheduler, s.pending[0].request.id, QueueTimeout));
      ExpireHeadsExact(t, now, timeout);
      HeadOverdue(s, t, ExpireHeads(s, now, timeout), now, timeout);
    } else {
      HeadFresh(s.pending, now, timeout);
    }
  }

  lemma HeadOverdue(s: State, t: State, r: State, now: real, timeout: real)
    requires s.pending != [] && Overdue(s.pending[0], now, timeout)
    requires t.pending == s.pending[1..] && t.events == s.events + [Failure(FromScheduler, s.pending[0].request.id, QueueTimeout)]
    requires r.pending == Fresh(t.pending, now, timeout) && r.events == t.events + Expiries(t.pending, now, timeout)
    ensures r.pending == Fresh(s.pending, now, timeout) && r.events == s.events + Expiries(s.pending, now, timeout)
  {
  }

  lemma HeadFresh(pending: seq<Pending>, now: real, timeout: real)
    requires forall j, k :: 0 <= j < k < |pending| ==> pending[j].enqueuedAt <= pending[k].enqueuedAt
    requires pending != [] ==> !Overdue(pending[0], now, timeout)
    ensures Fresh(pending, now, timeout) == pending && Expiries(pending, now, timeout) == []
  {
    AllFresh(pending, now, timeout);
  }

  // Enqueue times that lie in the past still do later.
  lemma TimedLater(s: State, now: real, later: real)
    requires Timed(s, now) && now <= later
    ensures Timed(s, later)
  {
  }

  /** After any run on a forward clock, and at any later time, expiry keeps exactly the requests that have waited less
      than the timeout, and reports the others in queue order, each once. */
  lemma QueueExpiryIsExact(s: State, ops: seq<Op>, start: real, timeout: real, now: real)
    requires Init(s) && s.config.queueTimeout == Some(timeout)
    requires AllFit(ops, |s.workers|) && WellTimed(ops, start) && LastClock(ops, start) <= now
    ensures var r := Run(s, ops);
      && ExpirePending(r, now).pending == Fresh(r.pending, now, timeout)
      && ExpirePending(r, now).events == r.events + Expiries(r.pending, now, timeout)
  {
    RunTimed(s, ops, start);
    TimedLater(Run(s, ops), LastClock(ops, start), now);
    ExpireHeadsExact(Run(s, ops), now, timeout);
  }

  // Expiring running requests leaves the queue alone while a worker is healthy, and otherwise fails all of it.
  lemma ActiveExpiryQueue(s: State, now: real)
    ensures var t := ExpireActive(s, now);
      t.pending == s.pending || (t.pending == [] && !AnyHealthy(t.workers))
  {
    if s.config.maxInference.Some? {
      var u := ExpireActiveFrom(s, 0, now, s.config.maxInference.value);
      SameQueue(s, 0, now, s.config.maxInference.value);
      if !AnyHealthy(u.workers) { FailHeadsEmpties(u); }
    }
  }

  lemma {:induction false} SameQueue(s: State, i: nat, now: real, timeout: real)
    requires i <= |s.workers|
    ensures ExpireActiveFrom(s, i, now, timeout).pending == s.pending
    decreases |s.workers| - i
  {
    if i < |s.workers| { SameQueue(ExpireWorker(s, i, now, timeout), i + 1, now, timeout); }
  }

  lemma {:induction false} FailHeadsEmpties(s: State)
    ensures FailHeads(s).pending == []
    decreases |s.pending|
  {
    if s.pending != [] { FailHeadsEmpties(RetireHead(s, Failure(FromScheduler, s.pending[0].request.id, NoHealthyWorker))); }
  }

  /** So a poll at any later time retires exactly the overdue requests, in order, before it reads from any worker, unless
      expiring the running ones left no healthy worker and failed the whole queue; and if there were any it returns at
      once with their events. */
  lemma PollExpiresExactly(s: State, ops: seq<Op>, start: real, timeout: real, now: real, replies: seq<Reply>)
    requires Init(s) && s.config.queueTimeout == Some(timeout) && |s.workers| <= |replies|
    requires AllFit(ops, |s.workers|) && WellTimed(ops, start) && LastClock(ops, start) <= now
    ensures var r := Run(s, ops);
      var t := ExpireActive(r, now);
      var (p, outcome) := Poll(r, now, replies);
      && (t.pending == r.pending || (t.pending == [] && !AnyHealthy(t.workers)))
      && Expire(r, now).pending == Fresh(t.pending, now, timeout)
      && Expire(r, now).events == t.events + Expiries(t.pending, now, timeout)
      && (Expiries(t.pending, now, timeout) != [] ==>
            outcome == Events(t.events + Expiries(t.pending, now, timeout)) && p.pending == Fresh(t.pending, now, timeout))
  {
    var r := Run(s, ops);
    var t := ExpireActive(r, now);
    RunTimed(s, ops, start);
    TimedLater(r, LastClock(ops, start), now);
    ActiveExpiryQueue(r, now);
    ExpireHeadsExact(t, now, timeout);
  }
}
