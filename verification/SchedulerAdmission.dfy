/** Which requests the scheduler takes, and why it refuses the others. */
module SchedulerAdmission {
  import opened Messages
  import opened WorkerModel
  import opened SchedulerSpec
  import opened SchedulerInvariants
  import opened SchedulerRuns
  import opened SchedulerService

  /* ---- The reasons ---- */

  // A worker is ready, and fewer requests are running than the cap allows.
  ghost predicate Room(s: State) {
    SomeReady(s) && (s.config.maxConcurrent.Some? ==> CountState(s.workers, Busy) < s.config.maxConcurrent.value)
  }

  // The pipe of the first ready worker rejects a send.
  ghost predicate FirstIsBroken(s: State, broken: set<nat>) {
    exists i: nat :: i in broken && i < |s.workers| && s.workers[i].state.Ready?
      && forall k :: 0 <= k < i ==> !s.workers[k].state.Ready?
  }

  ghost predicate AllGone(s: State) {
    forall i :: 0 <= i < |s.workers| ==> s.workers[i].state.Failed? || s.workers[i].state.Stopped?
  }

  // The scheduler is open and the id was not accepted before.
  predicate IsNew(s: State, id: RequestId) {
    !s.closed && id !in s.submitted
  }

  lemma RoomIff(s: State)
    requires Core(s)
    ensures Room(s) <==> FirstReady(s.workers) < |s.workers| && BelowCap(s)
  {
    CountBusy(s.workers, s.active.Keys);
  }

  lemma FirstIsBrokenIff(s: State, broken: set<nat>)
    ensures FirstIsBroken(s, broken) <==> FirstReady(s.workers) < |s.workers| && FirstReady(s.workers) in broken
  {
  }

  lemma AllGoneIff(s: State)
    requires Shape(s)
    ensures AllGone(s) <==> !AnyHealthy(s.workers)
  {
    if i :| 0 <= i < |s.workers| && !(s.workers[i].state.Failed? || s.workers[i].state.Stopped?) {
      assert Healthy(s.workers[i]);
    }
  }

  /** Between calls `submit` answers as follows: it refuses a closed scheduler, then an id it accepted before; it sends the
      request on if a worker is ready and fewer requests run than the cap allows, failing if that worker's pipe is broken;
      otherwise it refuses when the queue is full, or else when every worker has failed or stopped, and queues it when
      not. */
  lemma SubmitAnswersIff(s: State, request: Request, now: real, broken: set<nat>)
    requires Inv(s)
    ensures var outcome := Submit(s, request, now, broken).1;
      var isNew, full := IsNew(s, request.id), |s.pending| == s.config.maxPending;
      && (outcome == Rejected(SchedulerClosed) <==> s.closed)
      && (outcome == Rejected(DuplicateRequestId) <==> !s.closed && request.id in s.submitted)
      && (outcome == Rejected(SendFailed) <==> isNew && Room(s) && FirstIsBroken(s, broken))
      && (outcome == Dispatched <==> isNew && Room(s) && !FirstIsBroken(s, broken))
      && (outcome == Rejected(QueueFull) <==> isNew && !Room(s) && full)
      && (outcome == Rejected(NoHealthy) <==> isNew && !Room(s) && !full && AllGone(s))
      && (outcome == Queued <==> isNew && !Room(s) && !full && !AllGone(s))
  {
    RoomIff(s);
    FirstIsBrokenIff(s, broken);
    AllGoneIff(s);
  }

  /* ---- A burst of requests ---- */

  // One request after another, each of another id, while pipes work.
  predicate Burst(ops: seq<Op>) {
    && (forall k :: 0 <= k < |ops| ==> ops[k].SubmitOp? && ops[k].broken == {})
    && (forall j, k :: 0 <= j < k < |ops| ==> ops[j].request.id != ops[k].request.id)
  }

  function BurstIds(ops: seq<Op>): (r: seq<RequestId>)
    requires forall k :: 0 <= k < |ops| ==> ops[k].SubmitOp?
    ensures |r| == |ops| && forall k :: 0 <= k < |ops| ==> r[k] == ops[k].request.id
  {
    seq(|ops|, k requires 0 <= k < |ops| => ops[k].request.id)
  }

  function Min(a: nat, b: nat): nat {
    if a < b then a else b
  }

  // How many requests can run at a time.
  function Slots(s: State): nat {
    if s.config.maxConcurrent.None? then |s.workers| else Min(|s.workers|, s.config.maxConcurrent.value)
  }

  function Capacity(s: State): nat {
    Slots(s) + s.config.maxPending
  }

  // The first `n` workers are running, and the others are ready.
  ghost predicate RunningUpTo(s: State, n: nat) {
    && n <= |s.workers| && |s.active| == n
    && (forall i :: 0 <= i < n ==> s.workers[i].state.Busy?)
    && (forall i :: n <= i < |s.workers| ==> s.workers[i].state.Ready?)
    && (forall i: nat :: i in s.active <==> i < n)
  }

  // `s` is `s0` after the requests `ids`.
  ghost predicate Loaded(s0: State, s: State, ids: seq<RequestId>) {
    && s.config == s0.config && |s.workers| == |s0.workers| && !s.closed
    && RunningUpTo(s, Min(|ids|, Slots(s0)))
    && |s.pending| == Min(|ids|, Capacity(s0)) - Min(|ids|, Slots(s0))
    && (forall id :: id in s.submitted <==> id in ids[..Min(|ids|, Capacity(s0))])
    && s.log.admitted == ids[..Min(|ids|, Capacity(s0))]
    && s.log.dispatched == ids[..Min(|ids|, Slots(s0))]
  }

  // What is answered to the `k`-th request.
  function Answer(s0: State, k: nat): Submitted {
    if k < Slots(s0) then Dispatched else if k < Capacity(s0) then Queued else Rejected(QueueFull)
  }

  lemma LoadedRoom(s0: State, s: State, n: nat)
    requires Init(s0) && RunningUpTo(s, Min(n, Slots(s0))) && s.config == s0.config && |s.workers| == |s0.workers|
    ensures n < Slots(s0) ==> BelowCap(s) && FirstReady(s.workers) == n
    ensures n >= Slots(s0) ==> !BelowCap(s) || FirstReady(s.workers) == |s.workers|
    ensures n >= Slots(s0) ==> AnyHealthy(s.workers)
  {
    if n < Slots(s0) {
      assert s.workers[n].state.Ready?;
    } else {
      assert Healthy(s.workers[0]);
    }
  }

  lemma NextDispatched(s0: State, s: State, ids: seq<RequestId>, request: Request, now: real)
    requires Init(s0) && Loaded(s0, s, ids) && request.id !in ids && |ids| < Slots(s0)
    ensures var (r, outcome) := Submit(s, request, now, {});
      outcome == Dispatched && Loaded(s0, r, ids + [request.id])
  {
    LoadedRoom(s0, s, |ids|);
    assert ids[..|ids|] == ids;
    assert (ids + [request.id])[..|ids| + 1] == ids + [request.id];
    OneMoreRuns(s, |ids|, request.id, now);
  }

  lemma OneMoreRuns(s: State, n: nat, id: RequestId, now: real)
    requires RunningUpTo(s, n) && n < |s.workers|
    ensures RunningUpTo(Assign(Admit(s, id), n, id, now), n + 1)
  {
    assert s.active[n := id].Keys == s.active.Keys + {n};
  }

  lemma NextQueued(s0: State, s: State, ids: seq<RequestId>, request: Request, now: real)
    requires Init(s0) && Loaded(s0, s, ids) && request.id !in ids && Slots(s0) <= |ids| < Capacity(s0)
    ensures var (r, outcome) := Submit(s, request, now, {});
      outcome == Queued && Loaded(s0, r, ids + [request.id])
  {
    LoadedRoom(s0, s, |ids|);
    assert ids[..|ids|] == ids;
    assert (ids + [request.id])[..|ids| + 1] == ids + [request.id];
    assert (ids + [request.id])[..Slots(s0)] == ids[..Slots(s0)];
  }

  lemma NextRefused(s0: State, s: State, ids: seq<RequestId>, request: Request, now: real)
    requires Init(s0) && Loaded(s0, s, ids) && request.id !in ids && Capacity(s0) <= |ids|
    ensures Submit(s, request, now, {}) == (s, Rejected(QueueFull)) && Loaded(s0, s, ids + [request.id])
  {
    LoadedRoom(s0, s, |ids|);
    assert (ids + [request.id])[..Capacity(s0)] == ids[..Capacity(s0)];
    assert (ids + [request.id])[..Slots(s0)] == ids[..Slots(s0)];
  }

  lemma NextOfBurst(s0: State, s: State, ids: seq<RequestId>, request: Request, now: real)
    requires Init(s0) && Loaded(s0, s, ids) && request.id !in ids
    ensures var (r, outcome) := Submit(s, request, now, {});
      outcome == Answer(s0, |ids|) && Loaded(s0, r, ids + [request.id])
  {
    if |ids| < Slots(s0) {
      NextDispatched(s0, s, ids, request, now);
    } else if |ids| < Capacity(s0) {
      NextQueued(s0, s, ids, request, now);
    } else {
      NextRefused(s0, s, ids, request, now);
    }
  }

  lemma {:induction false} BurstLoads(s0: State, ops: seq<Op>)
    requires Init(s0) && Burst(ops)
    ensures AllFit(ops, |s0.workers|) && Loaded(s0, Run(s0, ops), BurstIds(ops))
    decreases |ops|
  {
    if ops != [] {
      var n := |ops| - 1;
      var before, last := ops[..n], ops[n];
      assert ops == before + [last] && BurstIds(ops) == BurstIds(before) + [last.request.id];
      BurstLoads(s0, before);
      NextOfBurst(s0, Run(s0, before), BurstIds(before), last.request, last.now);
      RunConcat(s0, before, [last]);
      RunOne(Run(s0, before), last);
    }
  }

  /** A fresh scheduler that gets requests with different ids one after another, while pipes work, sends on as many as
      there are workers and the cap allows, queues as many more as the queue holds, and refuses every one after those
      because the queue is full. */
  lemma CapacityIsExact(s0: State, ops: seq<Op>, request: Request, now: real)
    requires Init(s0) && Burst(ops + [SubmitOp(request, now, {})])
    ensures Burst(ops) && AllFit(ops, |s0.workers|)
    ensures var r, n := Run(s0, ops), |ops|;
      && r.log.dispatched == BurstIds(ops)[..Min(n, Slots(s0))]
      && r.log.admitted == BurstIds(ops)[..Min(n, Slots(s0) + s0.config.maxPending)]
      && Submit(r, request, now, {}).1 ==
           if n < Slots(s0) then Dispatched
           else if n < Slots(s0) + s0.config.maxPending then Queued
           else Rejected(QueueFull)
  {
    var all := ops + [SubmitOp(request, now, {})];
    assert forall k :: 0 <= k < |ops| ==> all[k] == ops[k];
    assert all[|ops|].request == request;
    BurstLoads(s0, ops);
    NextOfBurst(s0, Run(s0, ops), BurstIds(ops), request, now);
  }
}
