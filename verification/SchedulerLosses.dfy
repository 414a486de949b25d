/** Exactly when the scheduler loses a request: when it leaves without a report. */
module SchedulerLosses {
  import opened Messages
  import opened WorkerModel
  import opened SchedulerSpec
  import opened SchedulerInvariants
  import opened SchedulerRuns
  import opened SchedulerClosing

  /* ---- When a dispatch raises ---- */

  function ReadyBefore(ws: seq<Worker>, i: nat): nat
    requires i <= |ws|
  {
    if i == 0 then 0 else ReadyBefore(ws, i - 1) + if ws[i - 1].state.Ready? then 1 else 0
  }

  // A dispatch loop gets to worker `i`: it is ready, and neither the queue nor the cap ends the loop before it.
  predicate Reached(s: State, i: nat) {
    && i < |s.workers| && s.workers[i].state.Ready?
    && ReadyBefore(s.workers, i) < |s.pending|
    && (s.config.maxConcurrent.Some? ==> |s.active| + ReadyBefore(s.workers, i) < s.config.maxConcurrent.value)
  }

  predicate HitsBroken(s: State, broken: set<nat>) {
    exists i :: i in broken && Reached(s, i)
  }

  lemma {:induction false} NoneReadyBefore(ws: seq<Worker>, i: nat)
    requires i <= |ws| && forall k :: 0 <= k < i ==> !ws[k].state.Ready?
    ensures ReadyBefore(ws, i) == 0
  {
    if i > 0 { NoneReadyBefore(ws, i - 1); }
  }

  lemma {:induction false} ReadyBeforeGrows(ws: seq<Worker>, i: nat, j: nat)
    requires i < j <= |ws| && ws[i].state.Ready?
    ensures ReadyBefore(ws, j) > 0
  {
    if i < j - 1 { ReadyBeforeGrows(ws, i, j - 1); }
  }

  // Worker `f`, the first ready one, becomes busy.
  lemma {:induction false} ReadyBeforeWithout(ws: seq<Worker>, f: nat, w: Worker, j: nat)
    requires f < |ws| && ws[f].state.Ready? && !w.state.Ready? && j <= |ws|
    ensures ReadyBefore(ws[f := w], j) == ReadyBefore(ws, j) - if f < j then 1 else 0
  {
    if j > 0 { ReadyBeforeWithout(ws, f, w, j - 1); }
  }

  lemma AssignedReached(s: State, f: nat, now: real, j: nat)
    requires Core(s) && s.pending != [] && f == FirstReady(s.workers) < |s.workers| && j != f
    ensures Reached(AssignHead(s, f, now), j) <==> Reached(s, j)
  {
    AddedOne(s.active, f, s.pending[0].request.id);
    if j < |s.workers| {
      ReadyBeforeWithout(s.workers, f, Worker(Busy, Some(s.pending[0].request.id)), j);
      if f < j { ReadyBeforeGrows(s.workers, f, j); }
    }
  }

  lemma AddedOne(m: map<nat, RequestId>, i: nat, id: RequestId)
    requires i !in m
    ensures |m[i := id]| == |m| + 1
  {
    assert m[i := id].Keys == m.Keys + {i};
  }

  /** A dispatch raises exactly when the pipe of a worker that it gets to is broken. */
  lemma {:induction false} DispatchRaisesIff(s: State, now: real, broken: set<nat>)
    requires Core(s)
    ensures DispatchLoop(s, now, broken).1 <==> HitsBroken(s, broken)
    decreases |s.pending|
  {
    var f := FirstReady(s.workers);
    if s.pending == [] || !BelowCap(s) || f == |s.workers| {
      StopsAtOnce(s, broken);
    } else {
      NoneReadyBefore(s.workers, f);
      assert Reached(s, f);
      if f !in broken {
        var t := AssignHead(s, f, now);
        AssignHeadKeeps(s, f, now);
        DispatchRaisesIff(t, now, broken);
        AssignedHits(s, f, now, broken);
      }
    }
  }

  lemma StopsAtOnce(s: State, broken: set<nat>)
    requires s.pending == [] || !BelowCap(s) || FirstReady(s.workers) == |s.workers|
    ensures !HitsBroken(s, broken)
  {
  }

  lemma AssignedHits(s: State, f: nat, now: real, broken: set<nat>)
    requires Core(s) && s.pending != [] && f == FirstReady(s.workers) < |s.workers| && f !in broken
    ensures HitsBroken(AssignHead(s, f, now), broken) <==> HitsBroken(s, broken)
  {
    forall j | j in broken ensures Reached(AssignHead(s, f, now), j) <==> Reached(s, j) {
      AssignedReached(s, f, now, j);
    }
  }

  /* ---- What one visit loses ---- */

  // The visit reads a message that ends the request of worker `i`.
  predicate Ends(s: State, i: nat, reply: Reply) {
    && i in s.active && reply.read.Got? && Terminal(reply.read.message.kind)
    && reply.read.message.requestId in {None, Some(s.active[i])}
  }

  // It ends it without naming it.
  predicate EndsNameless(s: State, i: nat, reply: Reply) {
    Ends(s, i, reply) && reply.read.message.requestId.None?
  }

  // The scheduler as the dispatch after that message finds it.
  function AtDispatch(s: State, i: nat, reply: Reply): State
    requires Ends(s, i, reply) && i < |s.workers|
  {
    ExpirePending(Finish(s, i, Worker(WorkerState.Ready, None), reply.read.message), reply.at)
  }

  // The dispatch after that message gets to a broken pipe.
  predicate SendFails(s: State, i: nat, reply: Reply) {
    i < |s.workers| && Ends(s, i, reply) && HitsBroken(AtDispatch(s, i, reply), reply.broken)
  }

  function OneIf(b: bool): nat {
    if b then 1 else 0
  }

  lemma EndedVisit(s: State, i: nat, reply: Reply)
    requires Core(s) && i < |s.workers| && Ends(s, i, reply)
    ensures Core(AtDispatch(s, i, reply))
    ensures PollWorker(s, i, reply) == DispatchLoop(AtDispatch(s, i, reply), reply.at, reply.broken)
    ensures |AtDispatch(s, i, reply).log.dropped| == |s.log.dropped| + OneIf(EndsNameless(s, i, reply))
  {
    var u := Finish(s, i, Worker(WorkerState.Ready, None), reply.read.message);
    FinishKeeps(s, i, Worker(WorkerState.Ready, None), reply.read.message);
    ExpirePendingKeeps(u, reply.at);
    if u.config.queueTimeout.Some? { ExpiryDropsNothing(u, reply.at, u.config.queueTimeout.value); }
  }

  lemma OtherVisit(s: State, i: nat, reply: Reply)
    requires Core(s) && i < |s.workers| && !Ends(s, i, reply)
    ensures var (r, raised) := PollWorker(s, i, reply); !raised && r.log.dropped == s.log.dropped
  {
    if i in s.active { NoEnd(s.workers[i], s.active[i], reply.read); }
  }

  lemma NoEnd(w: Worker, id: RequestId, read: Read)
    requires w == Worker(Busy, Some(id))
    requires !(read.Got? && Terminal(read.message.kind) && read.message.requestId in {None, Some(id)})
    ensures var received := Receive(w, read).1; !received.NotBusy? && !(received.Delivered? && Terminal(received.message.kind))
  {
  }

  /** A visit raises exactly when the dispatch it makes gets to a broken pipe, and loses one request for that and
      one for an end that names none. */
  lemma VisitLoses(s: State, i: nat, reply: Reply)
    requires Core(s) && i < |s.workers|
    ensures var (r, raised) := PollWorker(s, i, reply);
      && (raised <==> SendFails(s, i, reply))
      && |r.log.dropped| == |s.log.dropped| + OneIf(EndsNameless(s, i, reply)) + OneIf(SendFails(s, i, reply))
  {
    if Ends(s, i, reply) {
      EndedVisit(s, i, reply);
      DispatchRaisesIff(AtDispatch(s, i, reply), reply.at, reply.broken);
      DispatchDrops(AtDispatch(s, i, reply), reply.at, reply.broken);
    } else {
      OtherVisit(s, i, reply);
    }
  }

  /* ---- What a poll loses ---- */

  // The state in which the loop visits worker `j`, having started at worker `i`.
  function Before(s: State, i: nat, j: nat, replies: seq<Reply>): (r: State)
    requires i <= j <= |s.workers| <= |replies|
    ensures |r.workers| == |s.workers|
    decreases j - i
  {
    if i == j then s else Before(PollWorker(s, i, replies[i]).0, i + 1, j, replies)
  }

  // Visit `j` of the loop loses a request.
  predicate LosesAt(s: State, i: nat, j: nat, replies: seq<Reply>)
    requires i <= j < |s.workers| <= |replies|
  {
    EndsNameless(Before(s, i, j, replies), j, replies[j]) || SendFails(Before(s, i, j, replies), j, replies[j])
  }

  predicate FailsAt(s: State, i: nat, j: nat, replies: seq<Reply>)
    requires i <= j < |s.workers| <= |replies|
  {
    SendFails(Before(s, i, j, replies), j, replies[j])
  }

  predicate SomeFails(s: State, i: nat, replies: seq<Reply>)
    requires i <= |s.workers| <= |replies|
  {
    exists j :: i <= j < |s.workers| && FailsAt(s, i, j, replies)
  }

  predicate SomeLoses(s: State, i: nat, replies: seq<Reply>)
    requires i <= |s.workers| <= |replies|
  {
    exists j :: i <= j < |s.workers| && LosesAt(s, i, j, replies)
  }

  lemma LaterVisit(s: State, i: nat, j: nat, replies: seq<Reply>, t: State)
    requires i < j < |s.workers| <= |replies| && t == PollWorker(s, i, replies[i]).0
    ensures FailsAt(s, i, j, replies) <==> FailsAt(t, i + 1, j, replies)
    ensures LosesAt(s, i, j, replies) <==> LosesAt(t, i + 1, j, replies)
  {
  }

  lemma FirstOrLater(s: State, i: nat, k: nat, replies: seq<Reply>, t: State)
    requires i < |s.workers| <= |replies| && t == PollWorker(s, i, replies[i]).0 && k == i + 1
    ensures SomeFails(s, i, replies) <==> FailsAt(s, i, i, replies) || SomeFails(t, k, replies)
    ensures SomeLoses(s, i, replies) <==> LosesAt(s, i, i, replies) || SomeLoses(t, k, replies)
  {
    forall j: nat | i < j < |s.workers|
      ensures FailsAt(s, i, j, replies) <==> FailsAt(t, k, j, replies)
      ensures LosesAt(s, i, j, replies) <==> LosesAt(t, k, j, replies)
    {
      LaterVisit(s, i, j, replies, t);
    }
    if j: nat :| k <= j < |t.workers| && FailsAt(t, k, j, replies) { assert FailsAt(s, i, j, replies); }
    if j: nat :| k <= j < |t.workers| && LosesAt(t, k, j, replies) { assert LosesAt(s, i, j, replies); }
    if j: nat :| i < j < |s.workers| && FailsAt(s, i, j, replies) { assert FailsAt(t, k, j, replies); }
    if j: nat :| i < j < |s.workers| && LosesAt(s, i, j, replies) { assert LosesAt(t, k, j, replies); }
  }

  // How many requests the visits lose, up to the one that raises.
  function LostBy(s: State, i: nat, replies: seq<Reply>): nat
    requires i <= |s.workers| <= |replies|
    decreases |s.workers| - i
  {
    if i == |s.workers| then 0
    else
      OneIf(EndsNameless(s, i, replies[i]))
      + if SendFails(s, i, replies[i]) then 1 else LostBy(PollWorker(s, i, replies[i]).0, i + 1, replies)
  }

  // The loop from worker `i` on, which leads from `s` to `r`, raises and loses requests as its visits do.
  ghost predicate LostAsCounted(s: State, i: nat, replies: seq<Reply>, r: State, raised: bool)
    requires i <= |s.workers| <= |replies|
  {
    && (raised <==> SomeFails(s, i, replies))
    && |r.log.dropped| == |s.log.dropped| + LostBy(s, i, replies)
    && (LostBy(s, i, replies) > 0 <==> SomeLoses(s, i, replies))
  }

  /** The loop raises exactly when at some visit the dispatch gets to a broken pipe, and it loses a request exactly
      when at some visit that happens or an end names none. */
  lemma {:induction false} LoopLoses(s: State, i: nat, replies: seq<Reply>)
    requires Core(s) && i <= |s.workers| <= |replies|
    ensures var (r, raised) := PollFrom(s, i, replies); LostAsCounted(s, i, replies, r, raised)
    decreases |s.workers| - i
  {
    if i < |s.workers| {
      var t, raised := FirstVisitLoses(s, i, replies);
      if !raised { LoopLoses(t, i + 1, replies); }
      LosesWithRest(s, i, replies, t, raised);
    }
  }

  // What the first visit adds to the count.
  ghost predicate FirstCounted(s: State, i: nat, replies: seq<Reply>, t: State, raised: bool)
    requires i < |s.workers| == |t.workers| <= |replies|
  {
    && (SomeFails(s, i, replies) <==> raised || SomeFails(t, i + 1, replies))
    && (SomeLoses(s, i, replies) <==> |t.log.dropped| > |s.log.dropped| || SomeLoses(t, i + 1, replies))
    && (raised ==> |t.log.dropped| > |s.log.dropped|)
    && |s.log.dropped| + LostBy(s, i, replies) == |t.log.dropped| + (if raised then 0 else LostBy(t, i + 1, replies))
    && |t.log.dropped| >= |s.log.dropped|
  }

  lemma FirstVisitLoses(s: State, i: nat, replies: seq<Reply>) returns (t: State, raised: bool)
    requires Core(s) && i < |s.workers| <= |replies|
    ensures (t, raised) == PollWorker(s, i, replies[i]) && |t.workers| == |s.workers| && (!raised ==> Core(t))
    ensures FirstCounted(s, i, replies, t, raised)
  {
    t, raised := PollWorker(s, i, replies[i]).0, PollWorker(s, i, replies[i]).1;
    PollWorkerKeeps(s, i, replies[i]);
    FirstVisitCounts(s, i, replies, t, raised);
  }

  lemma FirstVisitCounts(s: State, i: nat, replies: seq<Reply>, t: State, raised: bool)
    requires Core(s) && i < |s.workers| == |t.workers| <= |replies| && (t, raised) == PollWorker(s, i, replies[i])
    ensures FirstCounted(s, i, replies, t, raised)
  {
    VisitLoses(s, i, replies[i]);
    FirstOrLater(s, i, i + 1, replies, t);
  }

  lemma LosesWithRest(s: State, i: nat, replies: seq<Reply>, t: State, raised: bool)
    requires i < |s.workers| == |t.workers| <= |replies| && (t, raised) == PollWorker(s, i, replies[i])
    requires FirstCounted(s, i, replies, t, raised)
    requires !raised ==> var (r, later) := PollFrom(t, i + 1, replies); LostAsCounted(t, i + 1, replies, r, later)
    ensures var (r, later) := PollFrom(s, i, replies); LostAsCounted(s, i, replies, r, later)
  {
  }

  // The worker loop of a poll runs: nothing expired before it.
  predicate Loops(s: State, now: real) {
    Expire(s, now).events == []
  }

  /** A poll raises exactly when its loop runs and at some visit the dispatch gets to a broken pipe; it loses one
      request for that and one for each end that names none, and so none exactly when neither happens. */
  lemma PollLosesIff(s: State, now: real, replies: seq<Reply>)
    requires Core(s) && |s.workers| <= |replies|
    ensures var (r, outcome) := Poll(s, now, replies);
      && (outcome.PollRaised? <==> Loops(s, now) && SomeFails(Expire(s, now), 0, replies))
      && |r.log.dropped| == |s.log.dropped| + (if Loops(s, now) then LostBy(Expire(s, now), 0, replies) else 0)
      && (|r.log.dropped| > |s.log.dropped| <==> Loops(s, now) && SomeLoses(Expire(s, now), 0, replies))
  {
    ExpireDropsNothing(s, now);
    ExpireKeeps(s, now);
    LoopLoses(Expire(s, now), 0, replies);
    FailPendingDropsNothing(PollFrom(Expire(s, now), 0, replies).0);
  }

  lemma FailPendingDropsNothing(s: State)
    ensures FailPendingWithoutHealthy(s).log.dropped == s.log.dropped
  {
    FailingDropsNothing(s);
  }

  /* ---- What a run loses ---- */

  // The guard of the branches that lose a request.
  predicate Loses(s: State, op: Op)
    requires Fits(op, |s.workers|)
  {
    match op
    case SubmitOp(_, _, _) => false
    case PollOp(now, replies) => Loops(s, now) && SomeLoses(Expire(s, now), 0, replies)
    case CancelOp(_) => false
    case CloseOp => !s.closed && s.active != map[]
  }

  predicate Keeps(s: State, ops: seq<Op>)
    requires AllFit(ops, |s.workers|)
    decreases |ops|
  {
    ops == [] || (!Loses(s, ops[0]) && Keeps(Step(s, ops[0]), ops[1..]))
  }

  lemma {:induction false} CloseIdle(s: State, i: nat)
    requires s.active == map[] && i <= |s.workers|
    ensures CloseWorkersFrom(s, i).log.dropped == s.log.dropped
    decreases |s.workers| - i
  {
    if i < |s.workers| { CloseIdle(CloseWorker(s, i), i + 1); }
  }

  lemma {:induction false} CloseLosesNone(s: State, i: nat)
    requires i <= |s.workers|
    ensures |CloseWorkersFrom(s, i).log.dropped| >= |s.log.dropped|
    ensures (exists k :: i <= k < |s.workers| && k in s.active) ==> |CloseWorkersFrom(s, i).log.dropped| > |s.log.dropped|
    decreases |s.workers| - i
  {
    if i < |s.workers| {
      var t := CloseWorker(s, i);
      CloseLosesNone(t, i + 1);
      if k :| i <= k < |s.workers| && k in s.active {
        assert k == i || k in t.active;
      }
    }
  }

  lemma CloseLosesIff(s: State)
    requires Inv(s)
    ensures |Close(s).log.dropped| >= |s.log.dropped|
    ensures |Close(s).log.dropped| > |s.log.dropped| <==> Loses(s, CloseOp)
  {
    if !s.closed {
      var s0 := s.(closed := true);
      CancelHeadsDropNothing(s0);
      if s.active == map[] {
        CloseIdle(CancelHeads(s0), 0);
      } else {
        var k :| k in s.active;
        assert k in CancelHeads(s0).active && 0 <= k < |s.workers|;
        CloseLosesNone(CancelHeads(s0), 0);
      }
    }
  }

  lemma StepLosesIff(s: State, op: Op)
    requires Inv(s) && Fits(op, |s.workers|)
    ensures |Step(s, op).log.dropped| >= |s.log.dropped|
    ensures |Step(s, op).log.dropped| > |s.log.dropped| <==> Loses(s, op)
  {
    match op
    case SubmitOp(_, _, _) =>
    case PollOp(now, replies) => PollLosesIff(s, now, replies);
    case CancelOp(id) => CancelDropsNothing(s, id);
    case CloseOp => CloseLosesIff(s);
  }

  lemma {:induction false} RunLosesIff(s: State, ops: seq<Op>)
    requires Inv(s) && AllFit(ops, |s.workers|)
    ensures |Run(s, ops).log.dropped| >= |s.log.dropped|
    ensures |Run(s, ops).log.dropped| == |s.log.dropped| <==> Keeps(s, ops)
    decreases |ops|
  {
    if ops != [] {
      StepLosesIff(s, ops[0]);
      StepKeeps(s, ops[0]);
      RunLosesIff(Step(s, ops[0]), ops[1..]);
    }
  }

  /** After a run every submitted id is exactly once among the queued, the running and the reported ones exactly when
      no operation of the run was in one of the branches that lose a request: a dispatch that gets to a broken
      pipe, an end that names no request, a close with a request running. */
  lemma ConservedIff(s: State, ops: seq<Op>)
    requires Init(s) && AllFit(ops, |s.workers|)
    ensures var r := Run(s, ops);
      Keeps(s, ops) <==> forall id :: id in r.submitted ==>
        InQueue(r.pending, id) + Running(r.workers, id) + Reported(r.log.reports, id) == 1
  {
    var r := Run(s, ops);
    InitInv(s);
    RunLosesIff(s, ops);
    forall id ensures Accounted(r, id) == if id in r.submitted then 1 else 0 { RequestsAreConserved(s, ops, id); }
    if |r.log.dropped| > 0 {
      var id := r.log.dropped[|r.log.dropped| - 1];
      assert Occurrences(r.log.dropped, id) > 0;
      assert Accounted(r, id) == 1;
    }
  }

  // No end goes without naming its request, and no pipe is broken.
  lemma HarmlessLoop(s: State, i: nat, replies: seq<Reply>)
    requires i <= |s.workers| <= |replies|
    ensures Unbroken(replies) ==> !SomeFails(s, i, replies)
    ensures Unbroken(replies) && Named(replies) ==> !SomeLoses(s, i, replies)
  {
  }

  /** While every pipe works no poll raises. */
  lemma UnbrokenNeverRaises(s: State, now: real, replies: seq<Reply>)
    requires Core(s) && |s.workers| <= |replies| && Unbroken(replies)
    ensures Poll(s, now, replies).1.Events?
  {
    PollLosesIff(s, now, replies);
    HarmlessLoop(Expire(s, now), 0, replies);
  }

  lemma {:induction false} FaultFreeKeeps(s: State, ops: seq<Op>)
    requires AllFit(ops, |s.workers|) && forall k :: 0 <= k < |ops| ==> FaultFree(ops[k])
    ensures Keeps(s, ops)
    decreases |ops|
  {
    if ops != [] {
      assert FaultFree(ops[0]);
      if ops[0].PollOp? { HarmlessLoop(Expire(s, ops[0].now), 0, ops[0].replies); }
      FaultFreeKeeps(Step(s, ops[0]), ops[1..]);
    }
  }

  /** In particular, while sends succeed, ends are named and the scheduler is open, the submitted ids split exactly
      into queued, running and reported ones. */
  lemma FaultFreeConservation(s: State, ops: seq<Op>, id: RequestId)
    requires Init(s) && AllFit(ops, |s.workers|) && forall k :: 0 <= k < |ops| ==> FaultFree(ops[k])
    ensures var r := Run(s, ops);
      InQueue(r.pending, id) + Running(r.workers, id) + Reported(r.log.reports, id)
      == if id in r.submitted then 1 else 0
  {
    FaultFreeKeeps(s, ops);
    ConservedIff(s, ops);
    RequestsAreConserved(s, ops, id);
  }

  /* ---- Runs that lose a request ---- */

  // The last word of a child that broke down: an error that names no request.
  const LAST_WORD := Message(Error, FromWorker(0), None, Fault(BackendFailed), 0)

  lemma NamelessPoll(s: State) returns (ops: seq<Op>)
    requires s.workers == [Worker(Busy, Some(1))] && s.active == map[0 := 1] && s.events == [] && s.pending == []
    requires s.log.dropped == [] && s.config == Config(1, None, None, None)
    ensures AllFit(ops, 1) && forall k :: 0 <= k < |ops| ==> ops[k].PollOp? && Unbroken(ops[k].replies)
    ensures Run(s, ops).log.dropped == [1] && Run(s, ops).workers == [Worker(WorkerState.Ready, None)]
  {
    var w := Worker(WorkerState.Ready, None);
    var t := Finish(s, 0, w, LAST_WORD);
    assert Receive(s.workers[0], Got(LAST_WORD)) == (w, Delivered(LAST_WORD));
    assert DispatchPending(t, 0.0, {}) == (t, false);
    var replies := [Reply(Got(LAST_WORD), 0.0, {})];
    assert PollWorker(s, 0, replies[0]) == (t, false);
    assert PollFrom(t, 1, replies) == (t, false);
    assert Expire(s, 0.0) == s;
    assert Healthy(t.workers[0]);
    assert FailPendingWithoutHealthy(t) == t;
    assert t.workers == [w];
    ops := [PollOp(0.0, replies)];
    RunOne(s, ops[0]);
  }

  /** A run in which a child's last word loses a request: one worker, one request, every pipe working.  The worker
      counts as ready afterwards. */
  lemma NamelessEndLosesRequest() returns (s0: State, ops: seq<Op>)
    ensures Init(s0) && AllFit(ops, |s0.workers|)
    ensures Run(s0, ops).log.dropped == [1] && Run(s0, ops).workers == [Worker(WorkerState.Ready, None)]
    ensures forall k :: 0 <= k < |ops| ==> !ops[k].CloseOp? && (ops[k].PollOp? ==> Unbroken(ops[k].replies))
  {
    s0 := OneReady(None);
    var submit, s1 := OneSubmitted(s0);
    var poll := NamelessPoll(s1);
    ops := submit + poll;
    RunConcat(s0, submit, poll);
  }

  lemma OneSubmitted(s0: State) returns (ops: seq<Op>, s1: State)
    requires s0 == OneReady(None)
    ensures AllFit(ops, 1) && s1 == Run(s0, ops) && forall k :: 0 <= k < |ops| ==> ops[k].SubmitOp?
    ensures s1.workers == [Worker(Busy, Some(1))] && s1.active == map[0 := 1] && s1.events == [] && s1.pending == []
    ensures s1.log.dropped == [] && s1.config == s0.config
  {
    ops := SubmitAt0(1);
    s1 := Step(s0, ops[0]);
    assert FirstReady(s0.workers) == 0;
    RunOne(s0, ops[0]);
  }
}
