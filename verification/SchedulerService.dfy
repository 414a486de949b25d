/** Whether queued requests get served: no idling, no overtaking, draining, and where a concurrency cap breaks it. */
module SchedulerService {
  import opened Messages
  import opened WorkerModel
  import opened SchedulerSpec
  import opened SchedulerInvariants
  import opened SchedulerProgress
  import opened SchedulerRuns
  import opened SchedulerLosses
  import opened SchedulerOrder

  // The concurrency cap cannot bind.
  predicate Uncapped(s: State) {
    s.config.maxConcurrent.None? || |s.workers| <= s.config.maxConcurrent.value
  }

  ghost predicate NoneReady(ws: seq<Worker>) {
    forall i :: 0 <= i < |ws| ==> !ws[i].state.Ready?
  }

  ghost predicate SomeBusy(ws: seq<Worker>) {
    exists i :: 0 <= i < |ws| && ws[i].state.Busy?
  }

  // No request waits beside a ready worker.
  ghost predicate NoIdle(s: State) {
    s.pending != [] ==> NoneReady(s.workers)
  }

  // Whatever waits, waits for a running request.
  ghost predicate Serving(s: State) {
    s.pending != [] ==> SomeBusy(s.workers)
  }

  /* ---- Counting ---- */

  function CountState(ws: seq<Worker>, state: WorkerState): nat {
    if ws == [] then 0 else (if ws[0].state == state then 1 else 0) + CountState(ws[1..], state)
  }

  lemma {:induction false} CountsSum(ws: seq<Worker>)
    requires forall i :: 0 <= i < |ws| ==> ws[i].state in {WorkerState.Ready, Busy, Stopped, WorkerState.Failed}
    ensures CountState(ws, WorkerState.Ready) + CountState(ws, Busy)
          + CountState(ws, WorkerState.Failed) + CountState(ws, Stopped) == |ws|
  {
    if ws != [] { CountsSum(ws[1..]); }
  }

  lemma {:induction false} CountBusy(ws: seq<Worker>, keys: set<nat>)
    requires forall i: nat :: i in keys <==> i < |ws| && ws[i].state.Busy?
    ensures CountState(ws, Busy) == |keys|
  {
    if ws == [] {
      assert keys == {};
    } else {
      var n := |ws| - 1;
      var init := ws[..n];
      CountAppend(init, ws[n], Busy);
      assert ws == init + [ws[n]];
      CountBusy(init, keys - {n});
    }
  }

  lemma {:induction false} CountAppend(ws: seq<Worker>, w: Worker, state: WorkerState)
    ensures CountState(ws + [w], state) == CountState(ws, state) + if w.state == state then 1 else 0
  {
    if ws != [] {
      assert (ws + [w])[1..] == ws[1..] + [w];
      CountAppend(ws[1..], w, state);
    } else {
      assert ws + [w] == [w];
    }
  }

  lemma {:induction false} SomeNotCounted(ws: seq<Worker>, i: nat, state: WorkerState)
    requires i < |ws| && ws[i].state != state
    ensures CountState(ws, state) < |ws|
  {
    AtMostAll(ws[1..], state);
    if i > 0 { SomeNotCounted(ws[1..], i - 1, state); }
  }

  lemma {:induction false} AtMostAll(ws: seq<Worker>, state: WorkerState)
    ensures CountState(ws, state) <= |ws|
  {
    if ws != [] { AtMostAll(ws[1..], state); }
  }

  /** Between calls the number of `active` entries is the number of busy workers, and the four counts of
      a snapshot sum to the number of workers. */
  lemma SnapshotCounts(s: State, ops: seq<Op>)
    requires Init(s) && AllFit(ops, |s.workers|)
    ensures var r := Run(s, ops);
      && CountState(r.workers, Busy) == |r.active|
      && CountState(r.workers, WorkerState.Ready) + CountState(r.workers, Busy)
         + CountState(r.workers, WorkerState.Failed) + CountState(r.workers, Stopped) == |s.workers|
  {
    InitInv(s);
    RunKeeps(s, ops);
    CountsSum(Run(s, ops).workers);
    CountBusy(Run(s, ops).workers, Run(s, ops).active.Keys);
  }

  /** Two workers never run the same request. */
  lemma ActiveIdsDistinct(s: State, i: nat, j: nat)
    requires Inv(s) && i in s.active && j in s.active && i != j
    ensures s.active[i] != s.active[j]
  {
    var id := s.active[i];
    assert Accounted(s, id) <= 1;
    if s.active[j] == id { TwoRunning(s.workers, i, j, id); }
  }

  lemma ReadyBelowCap(s: State, i: nat)
    requires Shape(s) && Uncapped(s) && i < |s.workers| && s.workers[i].state.Ready?
    ensures BelowCap(s)
  {
    CountBusy(s.workers, s.active.Keys);
    SomeNotCounted(s.workers, i, Busy);
  }

  /* ---- No idling ---- */

  // The dispatch loop leaves no ready worker beside a queued request, if only worker `i` was ready.
  lemma {:induction false} DispatchLoopNoIdle(s: State, i: nat, now: real, broken: set<nat>)
    requires Core(s) && Uncapped(s)
    requires s.pending != [] ==> forall j :: 0 <= j < |s.workers| && j != i ==> !s.workers[j].state.Ready?
    ensures NoIdle(DispatchLoop(s, now, broken).0)
    decreases |s.pending|
  {
    var k := FirstReady(s.workers);
    if s.pending != [] && k < |s.workers| {
      ReadyBelowCap(s, k);
      if k !in broken {
        AssignHeadKeeps(s, k, now);
        DispatchLoopNoIdle(AssignHead(s, k, now), i, now, broken);
      }
    }
  }

  lemma PollWorkerNoIdle(s: State, i: nat, reply: Reply)
    requires Core(s) && Uncapped(s) && NoIdle(s) && i < |s.workers|
    ensures NoIdle(PollWorker(s, i, reply).0)
  {
    if i in s.active {
      var (w, received) := Receive(s.workers[i], reply.read);
      if received.Delivered? && Terminal(received.message.kind) {
        var t := Finish(s, i, w, received.message);
        FinishKeeps(s, i, w, received.message);
        ExpirePendingKeeps(t, reply.at);
        DispatchLoopNoIdle(ExpirePending(t, reply.at), i, reply.at, reply.broken);
      }
    }
  }

  lemma {:induction false} PollFromNoIdle(s: State, i: nat, replies: seq<Reply>)
    requires Core(s) && Uncapped(s) && NoIdle(s) && i <= |s.workers| <= |replies|
    ensures NoIdle(PollFrom(s, i, replies).0)
    decreases |s.workers| - i
  {
    if i < |s.workers| {
      var (t, raised) := PollWorker(s, i, replies[i]);
      PollWorkerKeeps(s, i, replies[i]);
      PollWorkerNoIdle(s, i, replies[i]);
      if !raised { PollFromNoIdle(t, i + 1, replies); }
    }
  }

  lemma {:induction false} ExpireActiveFromNoIdle(s: State, i: nat, now: real, timeout: real)
    requires Core(s) && NoIdle(s) && i <= |s.workers|
    ensures NoIdle(ExpireActiveFrom(s, i, now, timeout))
    decreases |s.workers| - i
  {
    if i < |s.workers| {
      ExpireWorkerKeeps(s, i, now, timeout);
      ExpireActiveFromNoIdle(ExpireWorker(s, i, now, timeout), i + 1, now, timeout);
    }
  }

  // Failing the queue when nobody is healthy restores service: what is left waits for a busy worker.
  lemma FailPendingServes(s: State)
    requires Core(s) && NoIdle(s)
    ensures NoIdle(FailPendingWithoutHealthy(s)) && Serving(FailPendingWithoutHealthy(s))
  {
    if AnyHealthy(s.workers) {
      if s.pending != [] {
        var i :| 0 <= i < |s.workers| && Healthy(s.workers[i]);
        assert s.workers[i].state.Busy?;
      }
    } else {
      FailHeadsKeeps(s);
    }
  }

  lemma ExpireServes(s: State, now: real)
    requires Core(s) && NoIdle(s)
    ensures NoIdle(Expire(s, now)) && (Serving(s) ==> Serving(Expire(s, now)))
  {
    var t := ExpireActive(s, now);
    if s.config.maxInference.Some? {
      ExpireActiveFromNoIdle(s, 0, now, s.config.maxInference.value);
      ExpireActiveFromKeeps(s, 0, now, s.config.maxInference.value);
      FailPendingServes(ExpireActiveFrom(s, 0, now, s.config.maxInference.value));
    }
    assert NoIdle(t) && (Serving(s) ==> Serving(t));
  }

  lemma PollServes(s: State, now: real, replies: seq<Reply>)
    requires Inv(s) && Uncapped(s) && NoIdle(s) && |s.workers| <= |replies|
    ensures var (r, outcome) := Poll(s, now, replies);
      NoIdle(r) && (Serving(s) && outcome.Events? ==> Serving(r))
  {
    var s1 := Expire(s, now);
    ExpireServes(s, now);
    ExpireKeeps(s, now);
    PollFromNoIdle(s1, 0, replies);
    PollFromKeeps(s1, 0, replies);
    var s2 := PollFrom(s1, 0, replies).0;
    FailPendingServes(s2);
    DrainServes(s1);
    DrainServes(FailPendingWithoutHealthy(s2));
  }

  lemma DrainServes(s: State)
    ensures NoIdle(Drain(s)) == NoIdle(s) && Serving(Drain(s)) == Serving(s)
  {
  }

  lemma CancelServes(s: State, id: RequestId)
    requires Inv(s) && NoIdle(s)
    ensures NoIdle(Cancel(s, id).0) && (Serving(s) ==> Serving(Cancel(s, id).0))
  {
    var i := HolderFrom(s, 0, id);
    if IndexOf(s.pending, id) == |s.pending| && i < |s.workers| {
      var (w, cancelled) := CancelActive(s.workers[i]);
      var m := Message(Cancelled, FromWorker(i), cancelled, StageActive, 0);
      ReportActiveKeeps(s, i, w, m);
      FailPendingServes(Record(Release(s, i, w), m));
    }
  }

  lemma SubmitServes(s: State, request: Request, now: real, broken: set<nat>)
    requires Inv(s) && Uncapped(s) && NoIdle(s)
    ensures var r := Submit(s, request, now, broken).0; NoIdle(r) && (Serving(s) ==> Serving(r))
  {
    var i := FirstReady(s.workers);
    var (r, outcome) := Submit(s, request, now, broken);
    if i < |s.workers| {
      ReadyBelowCap(s, i);
      assert s.pending == [];
    } else if outcome.Queued? {
      var k :| 0 <= k < |s.workers| && Healthy(s.workers[k]);
      assert r.workers[k].state.Busy?;
    }
  }

  // No poll of the run raises.
  predicate NoneRaises(s: State, ops: seq<Op>)
    requires AllFit(ops, |s.workers|)
    decreases |ops|
  {
    ops == []
    || ((ops[0].PollOp? ==> Poll(s, ops[0].now, ops[0].replies).1.Events?) && NoneRaises(Step(s, ops[0]), ops[1..]))
  }

  /** None does while every pipe works. */
  lemma {:induction false} UnbrokenRunNeverRaises(s: State, ops: seq<Op>)
    requires Inv(s) && AllFit(ops, |s.workers|)
    requires forall k :: 0 <= k < |ops| && ops[k].PollOp? ==> Unbroken(ops[k].replies)
    ensures NoneRaises(s, ops)
    decreases |ops|
  {
    if ops != [] {
      if ops[0].PollOp? { UnbrokenNeverRaises(s, ops[0].now, ops[0].replies); }
      StepKeeps(s, ops[0]);
      UnbrokenRunNeverRaises(Step(s, ops[0]), ops[1..]);
    }
  }

  /** Without a binding cap no queued request ever waits beside a ready worker, in any run, and while no
      poll raises whatever waits has a busy worker to wait for. */
  lemma {:induction false} NeverIdle(s: State, ops: seq<Op>)
    requires Inv(s) && Uncapped(s) && NoIdle(s) && AllFit(ops, |s.workers|)
    ensures NoIdle(Run(s, ops))
    ensures Serving(s) && NoneRaises(s, ops) ==> Serving(Run(s, ops))
    decreases |ops|
  {
    if ops != [] {
      var t := Step(s, ops[0]);
      match ops[0] {
        case SubmitOp(request, now, broken) => SubmitServes(s, request, now, broken);
        case PollOp(now, replies) =>
          PollServes(s, now, replies);
        case CancelOp(id) => CancelServes(s, id);
        case CloseOp => CloseKeeps(s);
      }
      StepKeeps(s, ops[0]);
      NeverIdle(t, ops[1..]);
    }
  }

  /** Without a binding cap dispatch is first in, first out over whole runs, direct dispatches included. */
  lemma ServiceIsFifo(s: State, ops: seq<Op>)
    requires Init(s) && Uncapped(s) && AllFit(ops, |s.workers|)
    ensures Subseq(Run(s, ops).log.dispatched, Run(s, ops).log.admitted)
  {
    InitInv(s);
    ServiceFifoFrom(s, ops);
    var r := Run(s, ops);
    SubseqPrefix(r.log.dispatched, Ids(r.pending));
    SubseqTrans(r.log.dispatched, ServiceOrder(r), r.log.admitted);
  }

  lemma {:induction false} ServiceFifoFrom(s: State, ops: seq<Op>)
    requires Inv(s) && Uncapped(s) && NoIdle(s) && ServiceFifo(s) && AllFit(ops, |s.workers|)
    ensures ServiceFifo(Run(s, ops))
    decreases |ops|
  {
    if ops != [] {
      var op := ops[0];
      var r := Step(s, op);
      match op {
        case SubmitOp(request, now, broken) => SubmitOvertakesIff(s, request, now, broken);
        case PollOp(now, replies) => PollOrder(s, now, replies); SubseqTrans(ServiceOrder(r), ServiceOrder(s), s.log.admitted);
        case CancelOp(id) => CancelOrder(s, id); SubseqTrans(ServiceOrder(r), ServiceOrder(s), s.log.admitted);
        case CloseOp => CloseOrder(s); SubseqTrans(ServiceOrder(r), ServiceOrder(s), s.log.admitted);
      }
      StepKeeps(s, op);
      NeverIdle(s, [op]);
      assert [op][1..] == [] && Run(s, [op]) == r;
      ServiceFifoFrom(r, ops[1..]);
    }
  }

  /* ---- Draining ---- */

  ghost predicate Idle(s: State) {
    s.pending == [] && s.active == map[]
  }

  // Polls still needed: one for each queued request and one for those running.
  ghost function Remaining(s: State): nat {
    if Idle(s) then 0 else |s.pending| + 1
  }

  // The read ends the request of whichever worker it is for.
  predicate Decisive(read: Read) {
    match read
    case Nothing(alive) => !alive
    case Got(m) => Terminal(m.kind)
    case _ => true
  }

  predicate AllDecisive(replies: seq<Reply>) {
    forall k :: 0 <= k < |replies| ==> Decisive(replies[k].read)
  }

  ghost predicate NoneBusyFrom(ws: seq<Worker>, i: nat) {
    forall j :: i <= j < |ws| ==> !ws[j].state.Busy?
  }

  // With an empty queue every decisive visit frees its worker for good.
  lemma {:induction false} LoopEmpties(s: State, i: nat, replies: seq<Reply>)
    requires Core(s) && s.pending == [] && i <= |s.workers| <= |replies| && AllDecisive(replies)
    requires forall j :: 0 <= j < i ==> !s.workers[j].state.Busy?
    ensures var r := PollFrom(s, i, replies).0; r.pending == [] && NoneBusyFrom(r.workers, 0)
    decreases |s.workers| - i
  {
    if i < |s.workers| {
      var t := VisitEmpties(s, i, replies);
      LoopEmpties(t, i + 1, replies);
    }
  }

  // With an empty queue a decisive visit does not raise.
  lemma VisitEmpties(s: State, i: nat, replies: seq<Reply>) returns (t: State)
    requires Core(s) && s.pending == [] && i < |s.workers| <= |replies| && Decisive(replies[i].read)
    requires forall j :: 0 <= j < i ==> !s.workers[j].state.Busy?
    ensures Core(t) && t.pending == [] && |t.workers| == |s.workers|
    ensures forall j :: 0 <= j < i + 1 ==> !t.workers[j].state.Busy?
    ensures PollFrom(s, i, replies) == PollFrom(t, i + 1, replies)
  {
    t := PollWorker(s, i, replies[i]).0;
    PollWorkerKeeps(s, i, replies[i]);
    EmptyVisit(s, i, replies[i]);
  }

  lemma EmptyVisit(s: State, i: nat, reply: Reply)
    requires Shape(s) && s.pending == [] && i < |s.workers| && Decisive(reply.read)
    ensures var (t, raised) := PollWorker(s, i, reply);
      && !raised && t.pending == [] && !t.workers[i].state.Busy?
      && forall j :: 0 <= j < |s.workers| && j != i ==> t.workers[j] == s.workers[j]
  {
  }

  // One decisive visit with a waiting queue: a request leaves the queue, or the worker fails.
  lemma VisitServes(s: State, i: nat, reply: Reply)
    requires Core(s) && Uncapped(s) && NoIdle(s) && s.pending != [] && i < |s.workers|
    requires Decisive(reply.read) && reply.broken == {}
    ensures var (t, raised) := PollWorker(s, i, reply);
      && !raised
      && (|t.pending| < |s.pending|
          || (t.pending == s.pending && !t.workers[i].state.Busy?
              && forall j :: 0 <= j < |s.workers| && j != i ==> t.workers[j] == s.workers[j]))
  {
    if i in s.active {
      var (w, received) := Receive(s.workers[i], reply.read);
      if received.Delivered? {
        var u := Finish(s, i, w, received.message);
        FinishKeeps(s, i, w, received.message);
        var v := ExpirePending(u, reply.at);
        ExpirePendingKeeps(u, reply.at);
        DispatchDrops(v, reply.at, reply.broken);
        if v.pending != [] {
          assert v.workers[i].state.Ready?;
          ReadyBelowCap(v, i);
          assert FirstReady(v.workers) < |v.workers|;
        }
      }
    }
  }

  lemma {:induction false} LoopServes(s: State, i: nat, replies: seq<Reply>)
    requires Core(s) && Uncapped(s) && NoIdle(s) && s.pending != [] && i <= |s.workers| <= |replies|
    requires AllDecisive(replies) && Unbroken(replies)
    requires forall j :: 0 <= j < i ==> !s.workers[j].state.Busy?
    ensures var r := PollFrom(s, i, replies).0;
      |r.pending| < |s.pending| || (r.pending == s.pending && NoneBusyFrom(r.workers, 0))
    decreases |s.workers| - i
  {
    if i < |s.workers| {
      var (t, raised) := PollWorker(s, i, replies[i]);
      VisitServes(s, i, replies[i]);
      PollWorkerKeeps(s, i, replies[i]);
      PollWorkerNoIdle(s, i, replies[i]);
      if |t.pending| == |s.pending| { LoopServes(t, i + 1, replies); }
    }
  }

  // A poll that gets past expiry, with every send working and every busy worker ending its request or failing.
  ghost predicate Productive(s: State, op: Op)
    requires Fits(op, |s.workers|)
  {
    op.PollOp? && Expire(s, op.now).events == [] && AllDecisive(op.replies) && Unbroken(op.replies)
  }

  lemma NoneBusyIdle(s: State)
    requires Shape(s) && NoneBusyFrom(s.workers, 0)
    ensures s.active == map[]
  {
    assert s.active.Keys == {};
  }

  // The worker loop of a productive poll, and what follows it.
  lemma ProductiveLoop(s: State, replies: seq<Reply>)
    requires Core(s) && Uncapped(s) && NoIdle(s) && |s.workers| <= |replies|
    requires AllDecisive(replies) && Unbroken(replies)
    ensures var (t, raised) := PollFrom(s, 0, replies);
      !raised && var r := FailPendingWithoutHealthy(t); |r.pending| < |s.pending| || Idle(r)
  {
    var t := PollFrom(s, 0, replies).0;
    PollFromKeeps(s, 0, replies);
    LoopLoses(s, 0, replies);
    HarmlessLoop(s, 0, replies);
    if s.pending == [] {
      LoopEmpties(s, 0, replies);
      NoneBusyIdle(t);
    } else {
      LoopServes(s, 0, replies);
      if |t.pending| == |s.pending| {
        PollFromNoIdle(s, 0, replies);
        FailAll(t);
      }
    }
  }

  // No worker is busy and none is ready: what waits is failed.
  lemma FailAll(s: State)
    requires Core(s) && NoneBusyFrom(s.workers, 0) && NoIdle(s) && s.pending != []
    ensures Idle(FailPendingWithoutHealthy(s))
  {
    assert !AnyHealthy(s.workers);
    FailPendingKeeps(s);
    FailHeadsKeeps(s);
    NoneBusyIdle(FailHeads(s));
  }

  lemma ProductivePoll(s: State, op: Op)
    requires Inv(s) && Uncapped(s) && NoIdle(s) && Fits(op, |s.workers|) && Productive(s, op)
    ensures Remaining(Step(s, op)) < Remaining(s) || Idle(Step(s, op))
  {
    ExpireKeeps(s, op.now);
    ExpireServes(s, op.now);
    ExpireStaysIdle(s, op.now);
    ProductiveLoop(Expire(s, op.now), op.replies);
  }

  lemma ExpireStaysIdle(s: State, now: real)
    ensures Idle(s) ==> Idle(Expire(s, now))
  {
    if Idle(s) {
      QuietPoll(s, 0, seq(|s.workers|, _ => Reply(Nothing(true), now, {})), now,
                if s.config.maxInference.Some? then s.config.maxInference.value else 0.0);
    }
  }

  // Nothing but an admission adds work.
  lemma NoNewWork(s: State, op: Op)
    requires Inv(s) && Fits(op, |s.workers|) && !op.SubmitOp?
    ensures |Step(s, op).pending| <= |s.pending| && (Idle(s) ==> Idle(Step(s, op)))
  {
    match op
    case PollOp(now, replies) =>
      PollOrder(s, now, replies);
      if Idle(s) { IdlePoll(s, now, replies); }
    case CancelOp(id) => CancelAddsNothing(s, id);
    case CloseOp => CloseKeeps(s);
  }

  lemma IdlePoll(s: State, now: real, replies: seq<Reply>)
    requires Idle(s) && |s.workers| <= |replies|
    ensures Idle(Poll(s, now, replies).0)
  {
    QuietPoll(s, 0, replies, now, if s.config.maxInference.Some? then s.config.maxInference.value else 0.0);
  }

  lemma CancelAddsNothing(s: State, id: RequestId)
    ensures |Cancel(s, id).0.pending| <= |s.pending| && (Idle(s) ==> Idle(Cancel(s, id).0))
  {
    if IndexOf(s.pending, id) == |s.pending| { CancelActiveOrder(s, id); }
  }

  ghost function ProductiveCount(s: State, ops: seq<Op>): nat
    requires AllFit(ops, |s.workers|)
    decreases |ops|
  {
    if ops == [] then 0
    else (if Productive(s, ops[0]) then 1 else 0) + ProductiveCount(Step(s, ops[0]), ops[1..])
  }

  /** Without new submissions and without a binding cap, one productive poll for each queued request and
      one more leave the scheduler with nothing queued and nothing running, whatever else happens between them. */
  lemma {:induction false} Drains(s: State, ops: seq<Op>)
    requires Inv(s) && Uncapped(s) && NoIdle(s) && AllFit(ops, |s.workers|)
    requires forall k :: 0 <= k < |ops| ==> !ops[k].SubmitOp?
    requires ProductiveCount(s, ops) >= Remaining(s)
    ensures Idle(Run(s, ops))
    decreases |ops|
  {
    if ops != [] {
      var op := ops[0];
      var t := Step(s, op);
      NoNewWork(s, op);
      if Productive(s, op) { ProductivePoll(s, op); }
      StepKeeps(s, op);
      NeverIdle(s, [op]);
      assert [op][1..] == [] && Run(s, [op]) == t;
      Drains(t, ops[1..]);
    }
  }

  /* ---- What a binding cap breaks ---- */

  // A running request is cancelled on the worker that runs it.
  lemma CancelFindsHolder(s: State, id: RequestId, i: nat)
    requires Inv(s) && i in s.active && s.active[i] == id
    ensures IndexOf(s.pending, id) == |s.pending| && HolderFrom(s, 0, id) == i
  {
    OneRunning(s.workers, i, id);
    assert Accounted(s, id) <= 1;
    var k := IndexOf(s.pending, id);
    if k < |s.pending| { CutOne(s.pending, k, id); }
    var h := HolderFrom(s, 0, id);
    if h != i { ActiveIdsDistinct(s, h, i); }
  }

  // Taking the request from worker `i`, and stopping it, leaves a healthy worker and nothing running iff ...
  lemma StopStrandsIff(s: State, i: nat, m: Message)
    requires Inv(s) && i in s.active
    ensures var t := Record(Release(s, i, Worker(Stopped, None)), m);
      (t.active == map[] && AnyHealthy(t.workers))
      <==> (s.active.Keys == {i} && exists j :: 0 <= j < |s.workers| && s.workers[j].state.Ready?)
  {
    var t := Record(Release(s, i, Worker(Stopped, None)), m);
    if t.active == map[] && AnyHealthy(t.workers) {
      assert s.active.Keys - {i} == {};
      var j :| 0 <= j < |t.workers| && Healthy(t.workers[j]);
      assert j !in t.active;
      assert s.workers[j] == t.workers[j] && s.workers[j].state.Ready?;
    }
    if s.active.Keys == {i} && exists j :: 0 <= j < |s.workers| && s.workers[j].state.Ready? {
      var j :| 0 <= j < |s.workers| && s.workers[j].state.Ready?;
      assert t.workers[j] == s.workers[j] && Healthy(t.workers[j]);
      assert t.active.Keys == {};
    }
  }

  /** Cancelling the running request of worker `i` strands the queue (requests wait and nobody runs one)
      exactly when it was the only one running and another worker was ready. */
  lemma CancelStrandsIff(s: State, id: RequestId, i: nat)
    requires Inv(s) && i in s.active && s.active[i] == id
    ensures var r := Cancel(s, id).0;
      (r.pending != [] && r.active == map[])
      <==> (s.pending != [] && s.active.Keys == {i} && exists j :: 0 <= j < |s.workers| && s.workers[j].state.Ready?)
  {
    CancelFindsHolder(s, id, i);
    var m := Message(Cancelled, FromWorker(i), Some(id), StageActive, 0);
    var t := Record(Release(s, i, Worker(Stopped, None)), m);
    FailPendingProgress(t);
    StopStrandsIff(s, i, m);
    assert Cancel(s, id).0 == FailPendingWithoutHealthy(t);
  }

  // Requests wait and nobody runs one.
  ghost predicate Stranded(s: State) {
    s.pending != [] && s.active == map[]
  }

  ghost predicate SomeReady(s: State) {
    exists j :: 0 <= j < |s.workers| && s.workers[j].state.Ready?
  }

  // Whether nobody runs a request and some worker could, is decided by the ready workers.
  lemma IdleAndHealthyIff(s: State)
    requires Shape(s) && s.active == map[]
    ensures AnyHealthy(s.workers) <==> SomeReady(s)
  {
    if j :| 0 <= j < |s.workers| && Healthy(s.workers[j]) {
      assert j !in s.active && s.workers[j].state.Ready?;
    }
    if j :| 0 <= j < |s.workers| && s.workers[j].state.Ready? { assert Healthy(s.workers[j]); }
  }

  // Failing the queue when no worker is healthy leaves it stranded exactly when some worker is ready.
  lemma FailPendingStrandsIff(s: State)
    requires Core(s)
    ensures Stranded(FailPendingWithoutHealthy(s)) <==> Stranded(s) && SomeReady(s)
  {
    if s.active == map[] { IdleAndHealthyIff(s); }
    FailPendingProgress(s);
    FailHeadsKeeps(s);
  }

  // The running request of worker `i` has run for too long.
  predicate Late(s: State, i: nat, now: real, timeout: real) {
    i in s.active && i in s.started && now - s.started[i] >= timeout
  }

  // Every request listed as running has a busy worker.
  ghost predicate ActiveBusy(s: State) {
    forall k: nat :: k in s.active ==> k < |s.workers| && s.workers[k].state.Busy? && s.workers[k].activeId.Some?
  }

  // What expiry of the workers from `i` on leaves of `s` is `r`.
  ghost predicate LeftByExpiry(s: State, r: State, i: nat, now: real, timeout: real) {
    && (forall k: nat :: k in r.active <==> k in s.active && !(k >= i && Late(s, k, now, timeout)))
    && (SomeReady(r) <==> SomeReady(s)) && r.pending == s.pending
  }

  lemma {:induction false} ExpiryLeaves(s: State, i: nat, now: real, timeout: real)
    requires ActiveBusy(s) && i <= |s.workers|
    ensures LeftByExpiry(s, ExpireActiveFrom(s, i, now, timeout), i, now, timeout)
    decreases |s.workers| - i
  {
    if i < |s.workers| {
      var t := WorkerExpiryLeaves(s, i, now, timeout);
      ExpiryLeaves(t, i + 1, now, timeout);
      ExpiryLeavesBoth(s, t, ExpireActiveFrom(t, i + 1, now, timeout), i, now, timeout);
    }
  }

  lemma WorkerExpiryLeaves(s: State, i: nat, now: real, timeout: real) returns (t: State)
    requires ActiveBusy(s) && i < |s.workers|
    ensures t == ExpireWorker(s, i, now, timeout) && |t.workers| == |s.workers| && ActiveBusy(t)
    ensures AfterExpiry(s, t, i, now, timeout)
  {
    t := ExpireWorker(s, i, now, timeout);
    assert forall j :: 0 <= j < |s.workers| ==> (t.workers[j].state.Ready? <==> s.workers[j].state.Ready?);
  }

  // Only worker `i` was looked at.
  ghost predicate AfterExpiry(s: State, t: State, i: nat, now: real, timeout: real) {
    && (forall k: nat :: k in t.active <==> k in s.active && !(k == i && Late(s, k, now, timeout)))
    && (forall k: nat :: k != i ==> (Late(t, k, now, timeout) <==> Late(s, k, now, timeout)))
    && (SomeReady(t) <==> SomeReady(s)) && t.pending == s.pending
  }

  lemma ExpiryLeavesBoth(s: State, t: State, r: State, i: nat, now: real, timeout: real)
    requires AfterExpiry(s, t, i, now, timeout) && LeftByExpiry(t, r, i + 1, now, timeout)
    ensures LeftByExpiry(s, r, i, now, timeout)
  {
  }

  /** Expiring running requests strands the queue exactly when requests wait, every running one is late, and some
      worker is ready. */
  lemma ExpiryStrandsIff(s: State, now: real, timeout: real)
    requires Inv(s) && s.config.maxInference == Some(timeout)
    ensures Stranded(ExpireActive(s, now))
      <==> s.pending != [] && (forall i: nat :: i in s.active ==> Late(s, i, now, timeout)) && SomeReady(s)
  {
    var r := ExpireActiveFrom(s, 0, now, timeout);
    ExpiryLeaves(s, 0, now, timeout);
    ExpireActiveFromKeeps(s, 0, now, timeout);
    FailPendingStrandsIff(r);
    assert r.active == map[] <==> forall i: nat :: i in s.active ==> Late(s, i, now, timeout) by {
      assert r.active == map[] <==> forall i: nat :: i !in r.active;
    }
  }

  /** So does a worker that fails: exactly when requests wait, it was the only one running one, and another is ready. */
  lemma FailureStrandsIff(s: State, i: nat, reply: Reply)
    requires Inv(s) && i in s.active && i < |s.workers| && Receive(s.workers[i], reply.read).1.Broke?
    ensures Stranded(FailPendingWithoutHealthy(PollWorker(s, i, reply).0))
      <==> s.pending != [] && s.active.Keys == {i} && SomeReady(s)
  {
    var r := PollWorker(s, i, reply).0;
    PollWorkerKeeps(s, i, reply);
    FailPendingStrandsIff(r);
    FailureLeaves(s, i, reply, r);
    AllButOne(s.active, i);
  }

  lemma FailureLeaves(s: State, i: nat, reply: Reply, r: State)
    requires Inv(s) && i in s.active && i < |s.workers| && Receive(s.workers[i], reply.read).1.Broke?
    requires r == PollWorker(s, i, reply).0
    ensures r.active == s.active - {i} && r.pending == s.pending && (SomeReady(r) <==> SomeReady(s))
  {
    assert forall j :: 0 <= j < |s.workers| ==> (r.workers[j].state.Ready? <==> s.workers[j].state.Ready?);
  }

  lemma AllButOne(m: map<nat, RequestId>, i: nat)
    requires i in m
    ensures m - {i} == map[] <==> m.Keys == {i}
  {
    assert (m - {i}).Keys == m.Keys - {i};
    if m.Keys == {i} { assert (m - {i}).Keys == {}; }
    if m - {i} == map[] { assert m.Keys - {i} == {}; }
  }

  /** Once stranded, and with no queue timeout, polling never helps: any number of polls changes nothing. */
  lemma {:induction false} StrandedForever(s: State, ops: seq<Op>)
    requires s.active == map[] && s.events == [] && s.config.queueTimeout.None? && AnyHealthy(s.workers)
    requires AllFit(ops, |s.workers|) && forall k :: 0 <= k < |ops| ==> ops[k].PollOp?
    ensures Run(s, ops) == s
    decreases |ops|
  {
    if ops != [] {
      var timeout := if s.config.maxInference.Some? then s.config.maxInference.value else 0.0;
      QuietPoll(s, 0, ops[0].replies, ops[0].now, timeout);
      StrandedForever(s, ops[1..]);
    }
  }

  // Two workers under a cap of one: request 1 runs, request 2 waits, and worker 1 is ready.
  function CappedState(cap: nat): State {
    State(Config(1, None, None, Some(cap)), [Worker(WorkerState.Ready, None), Worker(WorkerState.Ready, None)],
          [], map[], map[], {}, [], false, Log([], [], [], [], [], []))
  }

  lemma CappedStart() returns (s: State)
    ensures s == CappedState(1) && Init(s) && |s.workers| == 2 && s.config.queueTimeout.None?
  {
    s := CappedState(1);
  }

  lemma CappedSubmits(s: State) returns (s1: State, s2: State)
    requires s == CappedState(1)
    ensures s1 == Submit(s, Request(1, false, 0), 0.0, {}).0 && s2 == Submit(s1, Request(2, false, 0), 0.0, {}).0
    ensures s2.workers == [Worker(Busy, Some(1)), Worker(WorkerState.Ready, None)] && s2.active == map[0 := 1]
    ensures s2.pending == [Pending(Request(2, false, 0), 0.0)] && s2.events == [] && s2.config == s.config
  {
    s1 := Submit(s, Request(1, false, 0), 0.0, {}).0;
    assert FirstReady(s.workers) == 0;
    assert s1.workers == [Worker(Busy, Some(1)), Worker(WorkerState.Ready, None)] && s1.active == map[0 := 1];
    s2 := Submit(s1, Request(2, false, 0), 0.0, {}).0;
    assert Healthy(s1.workers[1]);
  }

  lemma StrandingCancel(s: State)
    requires s.workers == [Worker(Busy, Some(1)), Worker(WorkerState.Ready, None)] && s.active == map[0 := 1]
    requires s.pending == [Pending(Request(2, false, 0), 0.0)] && s.events == []
    ensures var r := Cancel(s, 1).0;
      && r.active == map[] && r.events == [] && AnyHealthy(r.workers) && r.pending == s.pending
      && |r.workers| == 2 && r.workers[1].state.Ready? && r.config == s.config
  {
    var t := Record(Release(s, 0, Worker(Stopped, None)), Message(Cancelled, FromWorker(0), Some(1), StageActive, 0));
    assert IndexOf(s.pending, 1) == 1 && HolderFrom(s, 0, 1) == 0;
    assert Healthy(t.workers[1]);
    assert Cancel(s, 1).0 == t;
  }

  /** A binding cap does strand a request: two workers, cap one; cancelling request 1 leaves request 2
      waiting beside a ready worker, and polling leaves it there. */
  lemma CapStrandsRequest() returns (s0: State, s1: State, s2: State)
    ensures Init(s0)
    ensures s1 == Submit(s0, Request(1, false, 0), 0.0, {}).0 && s2 == Submit(s1, Request(2, false, 0), 0.0, {}).0
    ensures var s3 := Cancel(s2, 1).0;
      && s3.pending == [Pending(Request(2, false, 0), 0.0)] && |s3.workers| == 2 && s3.workers[1].state.Ready?
      && forall polls: seq<Op> ::
           AllFit(polls, 2) && (forall k :: 0 <= k < |polls| ==> polls[k].PollOp?) ==> Run(s3, polls) == s3
  {
    s0 := CappedStart();
    s1, s2 := CappedSubmits(s0);
    StrandedAfterCancel(s2, Cancel(s2, 1).0);
  }

  lemma StrandedAfterCancel(s: State, r: State)
    requires s.workers == [Worker(Busy, Some(1)), Worker(WorkerState.Ready, None)] && s.active == map[0 := 1]
    requires s.pending == [Pending(Request(2, false, 0), 0.0)] && s.events == [] && s.config.queueTimeout.None?
    requires r == Cancel(s, 1).0
    ensures r.pending == [Pending(Request(2, false, 0), 0.0)] && |r.workers| == 2 && r.workers[1].state.Ready?
    ensures forall polls: seq<Op> ::
      AllFit(polls, 2) && (forall k :: 0 <= k < |polls| ==> polls[k].PollOp?) ==> Run(r, polls) == r
  {
    StrandingCancel(s);
    StrandedByPolls(r);
  }

  lemma StrandedByPolls(s: State)
    requires s.active == map[] && s.events == [] && s.config.queueTimeout.None? && AnyHealthy(s.workers)
    ensures forall polls: seq<Op> ::
      AllFit(polls, |s.workers|) && (forall k :: 0 <= k < |polls| ==> polls[k].PollOp?) ==> Run(s, polls) == s
  {
    forall polls: seq<Op> | AllFit(polls, |s.workers|) && forall k :: 0 <= k < |polls| ==> polls[k].PollOp?
      ensures Run(s, polls) == s
    {
      StrandedForever(s, polls);
    }
  }
}
