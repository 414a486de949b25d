/** What `cancel`, `close`, a failing worker and a failed send answer, message by message. */
module SchedulerAnswers {
  import opened Messages
  import opened WorkerModel
  import opened SchedulerSpec
  import opened SchedulerInvariants
  import opened SchedulerLosses
  import opened SchedulerReads
  import opened SchedulerAdmission

  // One failure for each waiting request, in the order of the queue.
  function Failures(pending: seq<Pending>, code: Code): (r: seq<Message>)
    ensures |r| == |pending|
  {
    seq(|pending|, k requires 0 <= k < |pending| => Failure(FromScheduler, pending[k].request.id, code))
  }

  lemma FailuresHead(pending: seq<Pending>, code: Code)
    requires pending != []
    ensures Failures(pending, code) == [Failure(FromScheduler, pending[0].request.id, code)] + Failures(pending[1..], code)
  {
  }

  lemma {:induction false} FailHeadsIs(s: State)
    ensures FailHeads(s).events == s.events + Failures(s.pending, NoHealthyWorker)
    ensures FailHeads(s).pending == [] && FailHeads(s).active == s.active
    decreases |s.pending|
  {
    if s.pending != [] {
      FailHeadsIs(RetireHead(s, Failure(FromScheduler, s.pending[0].request.id, NoHealthyWorker)));
      FailuresHead(s.pending, NoHealthyWorker);
    }
  }

  // The queue goes on waiting while some worker is up; otherwise all of it fails, in order.
  ghost predicate QueueKeptOrFailed(s: State, r: State) {
    if AllGone(r) then r.pending == [] && r.events == s.events + Failures(s.pending, NoHealthyWorker)
    else r.pending == s.pending && r.events == s.events
  }

  lemma FailPendingIs(s: State)
    requires Shape(s)
    ensures var r := FailPendingWithoutHealthy(s);
      r.workers == s.workers && r.active == s.active && QueueKeptOrFailed(s, r)
  {
    AllGoneIff(s);
    FailHeadsIs(s);
  }

  /* ---- Cancelling ---- */

  ghost predicate Waits(s: State, id: RequestId) {
    exists k :: 0 <= k < |s.pending| && s.pending[k].request.id == id
  }

  lemma CancelWaitingIs(s: State, id: RequestId)
    requires Inv(s) && Waits(s, id)
    ensures var (r, outcome) := Cancel(s, id);
      && outcome == CancelEvent(Message(Cancelled, FromScheduler, Some(id), StagePending, 0))
      && r.workers == s.workers && r.active == s.active && r.events == s.events
      && exists k :: 0 <= k < |s.pending| && s.pending[k].request.id == id && r.pending == s.pending[..k] + s.pending[k + 1..]
  {
    assert IndexOf(s.pending, id) < |s.pending|;
  }

  lemma CancelRunningIs(s: State, id: RequestId, i: nat)
    requires Inv(s) && Runs(s, i, id)
    ensures var (r, outcome) := Cancel(s, id);
      && outcome == CancelEvent(Message(Cancelled, FromWorker(i), Some(id), StageActive, 0))
      && r.workers == s.workers[i := Worker(Stopped, None)] && r.active == s.active - {i} && QueueKeptOrFailed(s, r)
  {
    RunningOnlyThere(s, i);
    assert IndexOf(s.pending, id) == |s.pending|;
    assert s.workers[i] == Worker(Busy, Some(id));
    HolderIs(s, i, id);
    var m := Message(Cancelled, FromWorker(i), Some(id), StageActive, 0);
    ReportActiveKeeps(s, i, Worker(Stopped, None), m);
    FailPendingIs(Record(Release(s, i, Worker(Stopped, None)), m));
  }

  lemma HolderIs(s: State, i: nat, id: RequestId)
    requires i < |s.workers| && OnlyAt(s, i, id)
    ensures HolderFrom(s, 0, id) == i
  {
    assert Runs(s, i, id);
    var h := HolderFrom(s, 0, id);
    if h < |s.workers| { assert Runs(s, h, id); }
  }

  lemma CancelUnknownIs(s: State, id: RequestId)
    requires !Waits(s, id) && forall w: nat :: !Runs(s, w, id)
    ensures Cancel(s, id) == (s, CancelRejected(RequestNotFound))
  {
    assert !Runs(s, HolderFrom(s, 0, id), id);
  }

  /** `cancel` withdraws a waiting request and nothing else, or stops the worker that runs it and nothing else but the
      queue, if no worker is left for it; the answer names the request and the stage.  What neither waits nor runs is not
      found. */
  lemma CancelAnswersIff(s: State, id: RequestId)
    requires Inv(s)
    ensures var (r, outcome) := Cancel(s, id);
      && (Waits(s, id) <==> outcome == CancelEvent(Message(Cancelled, FromScheduler, Some(id), StagePending, 0)))
      && (forall i: nat :: Runs(s, i, id) <==> outcome == CancelEvent(Message(Cancelled, FromWorker(i), Some(id), StageActive, 0)))
      && (!Waits(s, id) && (forall i: nat :: !Runs(s, i, id)) <==> outcome == CancelRejected(RequestNotFound))
      && (forall i: nat :: Runs(s, i, id) ==> r.workers == s.workers[i := Worker(Stopped, None)] && QueueKeptOrFailed(s, r))
  {
    if Waits(s, id) {
      CancelWaitingIs(s, id);
      forall i: nat ensures !Runs(s, i, id) {
        if Runs(s, i, id) { RunningOnlyThere(s, i); }
      }
    } else if i: nat :| Runs(s, i, id) {
      CancelRunningIs(s, id, i);
      RunningOnlyThere(s, i);
    } else {
      CancelUnknownIs(s, id);
    }
  }

  /* ---- Closing ---- */

  // One cancellation for each waiting request, in the order of the queue.
  function Withdrawals(pending: seq<Pending>): (r: seq<Message>)
    ensures |r| == |pending|
  {
    seq(|pending|, k requires 0 <= k < |pending| => Message(Cancelled, FromScheduler, Some(pending[k].request.id), StageShutdown, 0))
  }

  lemma {:induction false} CancelHeadsIs(s: State)
    ensures CancelHeads(s).events == s.events + Withdrawals(s.pending)
    decreases |s.pending|
  {
    if s.pending != [] {
      var m := Message(Cancelled, FromScheduler, Some(s.pending[0].request.id), StageShutdown, 0);
      CancelHeadsIs(RetireHead(s, m));
      assert Withdrawals(s.pending) == [m] + Withdrawals(s.pending[1..]);
    }
  }

  lemma {:induction false} StoppingEmitsNothing(s: State, i: nat, broken: set<nat>)
    requires i <= |s.workers|
    ensures StopWorkersFrom(s, i, broken).0.events == s.events && StopWorkersFrom(s, i, broken).0.pending == s.pending
    decreases |s.workers| - i
  {
    if i < |s.workers| { StoppingEmitsNothing(StopWorker(s, i), i + 1, broken); }
  }

  /** `close`, whether it raises or not, answers every waiting request with a cancellation at shutdown, in order, and
      nothing else. */
  lemma CloseAnswers(s: State, broken: set<nat>)
    requires !s.closed
    ensures var r := CloseOrRaise(s, broken).0; r.pending == [] && r.events == s.events + Withdrawals(s.pending)
  {
    CancelHeadsIs(s.(closed := true));
    StoppingEmitsNothing(CancelHeads(s.(closed := true)), 0, broken);
  }

  /* ---- Failed sends ---- */

  /** A direct dispatch whose send fails leaves the worker failed and everything else as it was; in particular the id may
      be submitted again. */
  lemma SendFailureIs(s: State, request: Request, now: real, broken: set<nat>, i: nat)
    requires Inv(s) && IsNew(s, request.id) && Room(s) && FirstIsBroken(s, broken)
    requires i < |s.workers| && s.workers[i].state.Ready? && forall k :: 0 <= k < i ==> !s.workers[k].state.Ready?
    ensures Submit(s, request, now, broken)
         == (s.(workers := s.workers[i := Worker(WorkerState.Failed, s.workers[i].activeId)]), Rejected(SendFailed))
  {
    RoomIff(s);
    FirstIsBrokenIff(s, broken);
    assert FirstReady(s.workers) == i;
  }

  /* ---- When the last worker fails ---- */

  // No visit ends a request, so none dispatches one.
  lemma {:induction false} LoopKeepsQueue(s: State, i: nat, replies: seq<Reply>)
    requires Core(s) && i <= |s.workers| <= |replies|
    requires forall k :: 0 <= k < |replies| ==> !(replies[k].read.Got? && Terminal(replies[k].read.message.kind))
    ensures var (r, raised) := PollFrom(s, i, replies); !raised && r.pending == s.pending && Core(r)
    decreases |s.workers| - i
  {
    if i < |s.workers| {
      var t := VisitKeepsQueue(s, i, replies);
      LoopKeepsQueue(t, i + 1, replies);
    }
  }

  lemma VisitKeepsQueue(s: State, i: nat, replies: seq<Reply>) returns (t: State)
    requires Core(s) && i < |s.workers| <= |replies|
    requires !(replies[i].read.Got? && Terminal(replies[i].read.message.kind))
    ensures Core(t) && t.pending == s.pending && |t.workers| == |s.workers|
    ensures PollFrom(s, i, replies) == PollFrom(t, i + 1, replies)
  {
    t := PollWorker(s, i, replies[i]).0;
    PollWorkerKeeps(s, i, replies[i]);
    OtherVisit(s, i, replies[i]);
    if i in s.active { NoEnd(s.workers[i], s.active[i], replies[i].read); }
  }

  /** A poll in which no request ends keeps the whole queue waiting, unless it leaves every worker failed or stopped: then
      its events end with one `no_healthy_worker` failure for each waiting request, in order. */
  lemma LastWorkerFails(s: State, now: real, replies: seq<Reply>)
    requires Core(s) && |s.workers| <= |replies| && Loops(s, now)
    requires forall k :: 0 <= k < |replies| ==> !(replies[k].read.Got? && Terminal(replies[k].read.message.kind))
    ensures var (r, outcome) := Poll(s, now, replies);
      && outcome.Events?
      && (if AllGone(r) then
            && r.pending == [] && |outcome.events| >= |s.pending|
            && outcome.events[|outcome.events| - |s.pending|..] == Failures(s.pending, NoHealthyWorker)
          else r.pending == s.pending)
  {
    LoopsUnchanged(s, now);
    LoopKeepsQueue(s, 0, replies);
    var u := PollFrom(s, 0, replies).0;
    FailPendingIs(u);
    assert AllGone(Drain(FailPendingWithoutHealthy(u))) == AllGone(FailPendingWithoutHealthy(u));
  }
}
