/** What `close` leaves behind, when every shutdown command can be sent and when one cannot. */
module SchedulerClosing {
  import opened Messages
  import opened WorkerModel
  import opened SchedulerSpec
  import opened SchedulerInvariants
  import opened SchedulerRuns

  /** A close drops exactly the running ones and reports the queued ones. */
  lemma CloseDropsActive(s: State, id: RequestId)
    requires Inv(s) && !s.closed
    ensures Occurrences(Close(s).log.dropped, id) == Occurrences(s.log.dropped, id) + Running(s.workers, id)
    ensures Reported(Close(s).log.reports, id) == Reported(s.log.reports, id) + InQueue(s.pending, id)
  {
    CloseKeeps(s);
    var s0 := s.(closed := true);
    assert Core(s0) by { assert forall x :: Accounted(s0, x) == Accounted(s, x); }
    var s1 := CancelHeads(s0);
    CancelHeadsKeeps(s0);
    CancelHeadsDropNothing(s0);
    CloseWorkersReportNothing(s1, 0);
    CloseWorkersKeeps(s1, 0);
    NothingRuns(CloseWorkersFrom(s1, 0).workers, id);
    assert Accounted(s0, id) == Accounted(s1, id) == Accounted(CloseWorkersFrom(s1, 0), id);
  }

  // A worker that `close` cannot tell to stop.
  predicate Refuses(ws: seq<Worker>, k: nat, broken: set<nat>) {
    k < |ws| && ws[k].state.Ready? && k in broken
  }

  // No worker from `i` on is in the middle of starting or stopping.
  ghost predicate Settled(ws: seq<Worker>, i: nat) {
    forall k: nat :: i <= k < |ws| ==> ws[k].state in {WorkerState.Ready, Busy, Stopped, WorkerState.Failed}
  }

  // `s` is `t` but for the requests of the workers before `i`, which `t` has forgotten already.
  ghost predicate SameFrom(s: State, t: State, i: nat) {
    && s == t.(active := s.active, started := s.started)
    && forall k: nat :: i <= k ==> (k in s.active <==> k in t.active) && (k in s.active ==> s.active[k] == t.active[k])
  }

  lemma {:induction false} StopsAll(s: State, t: State, i: nat, broken: set<nat>)
    requires SameFrom(s, t, i) && i <= |s.workers| && Settled(s.workers, i)
    requires forall k: nat :: i <= k ==> !Refuses(s.workers, k, broken)
    ensures var (r, raised) := StopWorkersFrom(s, i, broken);
      !raised && r == CloseWorkersFrom(t, i).(active := s.active, started := s.started)
    decreases |s.workers| - i
  {
    if i < |s.workers| {
      assert !Refuses(s.workers, i, broken);
      var s1, t1 := StopWorker(s, i), CloseWorker(t, i);
      forall k: nat | i + 1 <= k ensures !Refuses(s1.workers, k, broken) {
        assert Refuses(s1.workers, k, broken) == Refuses(s.workers, k, broken);
      }
      StopsAll(s1, t1, i + 1, broken);
    }
  }

  lemma {:induction false} StopsShort(s: State, i: nat, broken: set<nat>, k: nat)
    requires i <= k < |s.workers| && Refuses(s.workers, k, broken) && Settled(s.workers, i)
    requires forall j: nat :: i <= j < k ==> !Refuses(s.workers, j, broken)
    requires forall j: nat :: i <= j < k && s.workers[j].state.Busy? ==> s.workers[j].activeId.Some?
    ensures var (r, raised) := StopWorkersFrom(s, i, broken);
      && raised && r.active == s.active && r.closed == s.closed
      && (forall j: nat :: i <= j <= k ==> r.workers[j].state.Stopped?)
      && (forall j: nat :: j < i || k < j < |s.workers| ==> r.workers[j] == s.workers[j])
    decreases |s.workers| - i
  {
    if i < k {
      assert !Refuses(s.workers, i, broken);
      var t := StopWorker(s, i);
      forall j: nat | i + 1 <= j <= k ensures Refuses(t.workers, j, broken) == Refuses(s.workers, j, broken) {}
      StopsShort(t, i + 1, broken, k);
    }
  }

  /** `close` is meant to stop every worker.  When no worker refuses the shutdown command it does, as `Close`
      says.  When `k` is the first that refuses, the exception escapes: the workers after `k` are left as they
      were, running ones included; requests of the stopped ones are still listed as active; and as the scheduler
      is closed all the same, closing it again does nothing. */
  lemma CloseStopsAllIff(s: State, broken: set<nat>, k: nat)
    requires Inv(s) && !s.closed && k <= |s.workers|
    requires forall j: nat :: j < k ==> !Refuses(s.workers, j, broken)
    requires k == |s.workers| || Refuses(s.workers, k, broken)
    ensures var (r, raised) := CloseOrRaise(s, broken);
      && (raised <==> k < |s.workers|)
      && (!raised ==> r == Close(s) && forall j: nat :: j < |s.workers| ==> r.workers[j].state.Stopped?)
      && (raised ==>
            && r.active == s.active
            && (forall j: nat :: j <= k ==> r.workers[j].state.Stopped?)
            && (forall j: nat :: k < j < |s.workers| ==> r.workers[j] == s.workers[j]))
      && r.closed && forall again: set<nat> :: CloseOrRaise(r, again) == (r, false)
  {
    var s1 := CancelHeads(s.(closed := true));
    CloseKeeps(s);
    if k == |s.workers| { StopsAll(s1, s1, 0, broken); } else { StopsShort(s1, 0, broken, k); }
  }

  lemma {:induction false} FirstRefusal(ws: seq<Worker>, i: nat, broken: set<nat>) returns (k: nat)
    requires i <= |ws|
    ensures i <= k <= |ws| && (k == |ws| || Refuses(ws, k, broken))
    ensures forall j: nat :: i <= j < k ==> !Refuses(ws, j, broken)
    decreases |ws| - i
  {
    k := i;
    if i < |ws| && !Refuses(ws, i, broken) { k := FirstRefusal(ws, i + 1, broken); }
  }

  /** `close` does its work exactly when no worker refuses the shutdown command. */
  lemma CloseRaisesIff(s: State, broken: set<nat>)
    requires Inv(s)
    ensures var (r, raised) := CloseOrRaise(s, broken);
      && (raised <==> !s.closed && exists k: nat :: Refuses(s.workers, k, broken))
      && (!raised ==> r == Close(s))
  {
    if !s.closed {
      var k := FirstRefusal(s.workers, 0, broken);
      CloseStopsAllIff(s, broken, k);
    }
  }

  // The workers from `i` on and the map of active requests agree.
  ghost predicate AlignedFrom(s: State, i: nat) {
    forall k: nat :: i <= k < |s.workers| ==>
      (k in s.active <==> s.workers[k].state.Busy?) && (k in s.active ==> s.workers[k].activeId == Some(s.active[k]))
  }

  lemma {:induction false} StoppingConserves(s: State, i: nat, broken: set<nat>, id: RequestId)
    requires AlignedFrom(s, i) && i <= |s.workers|
    ensures Accounted(StopWorkersFrom(s, i, broken).0, id) == Accounted(s, id)
    decreases |s.workers| - i
  {
    if i < |s.workers| {
      var t := StopWorker(s, i);
      RunningUpdate(s.workers, i, Shutdown(s.workers[i]), id);
      if i in s.active { OccurrencesAppend(s.log.dropped, s.active[i], id); }
      StoppingConserves(t, i + 1, broken, id);
    }
  }

  /** Nor does a close that raises lose track of a request: after any run and a last close, whatever the pipes do,
      each submitted id is still exactly once among the queued, running, reported and dropped ones. */
  lemma ConservedThroughClose(s: State, ops: seq<Op>, broken: set<nat>, id: RequestId)
    requires Init(s) && AllFit(ops, |s.workers|)
    ensures var r := CloseOrRaise(Run(s, ops), broken).0;
      InQueue(r.pending, id) + Running(r.workers, id) + Reported(r.log.reports, id) + Occurrences(r.log.dropped, id)
      == if id in r.submitted then 1 else 0
  {
    var t := Run(s, ops);
    InitInv(s);
    RunKeeps(s, ops);
    RequestsAreConserved(s, ops, id);
    if !t.closed {
      var t0 := t.(closed := true);
      assert Core(t0) by { assert forall x :: Accounted(t0, x) == Accounted(t, x); }
      CancelHeadsKeeps(t0);
      ClosingConserves(CancelHeads(t0), broken, id);
    }
  }

  lemma ClosingConserves(s: State, broken: set<nat>, id: RequestId)
    requires Core(s)
    ensures var (r, raised) := StopWorkersFrom(s, 0, broken);
      && r.submitted == s.submitted && r.pending == s.pending
      && Accounted(r, id) == if id in s.submitted then 1 else 0
  {
    StoppingConserves(s, 0, broken, id);
    StoppingSubmitted(s, 0, broken);
    assert Accounted(s, id) == if id in s.submitted then 1 else 0;
  }

  lemma {:induction false} StoppingSubmitted(s: State, i: nat, broken: set<nat>)
    requires i <= |s.workers|
    ensures var r := StopWorkersFrom(s, i, broken).0; r.submitted == s.submitted && r.pending == s.pending
    decreases |s.workers| - i
  {
    if i < |s.workers| { StoppingSubmitted(StopWorker(s, i), i + 1, broken); }
  }

  // A scheduler whose first worker is ready and whose second runs request 2.
  function HalfBusy(): State {
    State(Config(1, None, None, None), [Worker(WorkerState.Ready, None), Worker(Busy, Some(2))], [], map[1 := 2],
          map[1 := 0.0], {1, 2}, [], false, Log([1, 2], [], [1, 2], [], [FirstDone()], []))
  }

  // Two ready workers, no timeouts.
  function TwoReady(): State {
    State(Config(1, None, None, None), [Worker(WorkerState.Ready, None), Worker(WorkerState.Ready, None)], [], map[],
          map[], {}, [], false, Log([], [], [], [], [], []))
  }

  // `TwoReady` after both workers were sent a request.
  function BothBusy(): State {
    HalfBusy().(workers := [Worker(Busy, Some(1)), Worker(Busy, Some(2))], active := map[0 := 1, 1 := 2],
                started := map[0 := 0.0, 1 := 0.0], log := Log([1, 2], [], [1, 2], [], [], []))
  }

  lemma BothSent(s0: State) returns (ops: seq<Op>)
    requires s0 == TwoReady()
    ensures AllFit(ops, 2) && Run(s0, ops) == BothBusy()
  {
    var s1 := Step(s0, SubmitAt0(1)[0]);
    assert FirstReady(s0.workers) == 0;
    assert s1.workers == [Worker(Busy, Some(1)), Worker(WorkerState.Ready, None)];
    assert FirstReady(s1.workers) == 1;
    assert Step(s1, SubmitAt0(2)[0]).workers == BothBusy().workers;
    RunOne(s0, SubmitAt0(1)[0]);
    RunOne(s1, SubmitAt0(2)[0]);
    ops := SubmitAt0(1) + SubmitAt0(2);
    RunConcat(s0, SubmitAt0(1), SubmitAt0(2));
  }

  lemma FirstEnds(s: State) returns (ops: seq<Op>)
    requires s == BothBusy()
    ensures AllFit(ops, 2) && Run(s, ops) == HalfBusy()
  {
    var replies := [Reply(Got(FirstDone()), 0.0, {}), Reply(Nothing(true), 0.0, {})];
    var w := Worker(WorkerState.Ready, None);
    var t := Finish(s, 0, w, FirstDone());
    assert Receive(s.workers[0], Got(FirstDone())) == (w, Delivered(FirstDone()));
    assert PollWorker(s, 0, replies[0]) == (t, false);
    assert t.workers == HalfBusy().workers && t.active == map[1 := 2] && t.started == map[1 := 0.0];
    assert PollWorker(t, 1, replies[1]) == (t, false);
    assert PollFrom(t, 2, replies) == (t, false);
    assert Expire(s, 0.0) == s;
    assert Healthy(t.workers[0]);
    ops := [PollOp(0.0, replies)];
    RunOne(s, ops[0]);
  }

  lemma RunToHalfBusy() returns (s0: State, ops: seq<Op>)
    ensures Init(s0) && AllFit(ops, |s0.workers|) && Run(s0, ops) == HalfBusy()
  {
    s0 := TwoReady();
    var submits := BothSent(s0);
    var poll := FirstEnds(BothBusy());
    ops := submits + poll;
    RunConcat(s0, submits, poll);
  }

  /** A run after which `close` leaves a worker running: worker 0 has done its request and its pipe is broken, so
      worker 1 is never told to stop, then or by a second `close`. */
  lemma CloseLeavesRunning() returns (s0: State, ops: seq<Op>)
    ensures Init(s0) && AllFit(ops, |s0.workers|)
    ensures var (r, raised) := CloseOrRaise(Run(s0, ops), {0});
      raised && |r.workers| == 2 && r.workers[1] == Worker(Busy, Some(2)) && CloseOrRaise(r, {}) == (r, false)
  {
    s0, ops := RunToHalfBusy();
    var t := CancelHeads(HalfBusy().(closed := true));
    assert StopWorkersFrom(t, 0, {0}) == (StopWorker(t, 0), true);
  }

  lemma {:induction false} CancelHeadsDropNothing(s: State)
    ensures CancelHeads(s).log.dropped == s.log.dropped
    decreases |s.pending|
  {
    if s.pending != [] {
      CancelHeadsDropNothing(RetireHead(s, Message(Cancelled, FromScheduler, Some(s.pending[0].request.id), StageShutdown, 0)));
    }
  }

  lemma {:induction false} CloseWorkersReportNothing(s: State, i: nat)
    requires i <= |s.workers|
    ensures CloseWorkersFrom(s, i).log.reports == s.log.reports
    decreases |s.workers| - i
  {
    if i < |s.workers| { CloseWorkersReportNothing(CloseWorker(s, i), i + 1); }
  }
}
