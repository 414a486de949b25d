/** When the runtime discards a message of a stream: only after a cancellation, a backpressure timeout or shutdown. */
module StreamDelivery {
  import opened Messages
  import opened WorkerModel
  import opened SchedulerSpec
  import opened SchedulerInvariants
  import opened SchedulerProgress
  import opened StreamSystem
  import opened StreamInvariant
  import opened StreamScheduling
  import opened StreamWorkers
  import opened StreamVisits
  import opened StreamRouting
  import opened StreamTheorems

  // Nothing of `id` is left for the router.
  ghost predicate Finished(s: System, id: RequestId) {
    For(id, s.hand) == [] && For(id, s.sched.events) == [] && Ended(s.sched, id)
  }

  // A stream queue exists once `submit_stream` was accepted.
  ghost predicate Delivering(s: System, id: RequestId) {
    && !s.stopped
    && s.streams <= s.queues.Keys
    && (id in s.queues ==> id !in s.lost && (id in s.streams || Finished(s, id)))
    && (s.pc == Popping(id) ==> Finished(s, id))
    && (s.pc.Checking? || s.pc.Putting? || s.pc.Draining? ==>
          s.hand != [] && s.hand[0].requestId.Some? && s.hand[0].requestId.value in s.queues)
  }

  // The steps that give up on a stream.
  predicate Spoils(s: System, step: Step, id: RequestId) {
    || step == CancelRequest(id)
    || step.StopSignal?
    || (step.RouteGiveUp? && s.hand != [] && s.hand[0].requestId == Some(id))
  }

  /* ---- A finished request stays finished ---- */

  ghost predicate StaysEnded(s: State, r: State, id: RequestId) {
    Ended(s, id) ==> Ended(r, id) && For(id, r.events) == For(id, s.events)
  }

  lemma MovesStays(s: State, r: State, id: RequestId)
    requires Moves(s, r) && Shape(r)
    ensures StaysEnded(s, r, id)
  {
    Onward(s, r, id);
    assert EventsOk(s, r, id);
    assert r.events == s.events + r.events[|s.events|..];
    ForConcat(id, s.events, r.events[|s.events|..]);
  }

  lemma ReadStays(scripts: Scripts, s: State, i: nat, m: Message, at: real, broken: set<nat>, id: RequestId)
    requires Core(s) && i in s.active && i < |s.workers| && s.workers[i] == Worker(Busy, Some(s.active[i]))
    requires m.requestId in {None, Some(s.active[i])}
    ensures StaysEnded(s, PollWorker(s, i, Reply(Got(m), at, broken)).0, id)
  {
    PollReads(s, i, m, at, broken);
    ForAppend(id, s.events, m);
    assert IsRunning(s, s.active[i]);
    if Terminal(m.kind) {
      var ready := Worker(WorkerState.Ready, None);
      var u := Finish(s, i, ready, m);
      FinishKeeps(s, i, ready, m);
      FinishStays(s, i, m, id);
      DispatchPendingKeeps(u, at, broken);
      DispatchPendingProgress(u, at, broken);
      ProgressMoves(u, DispatchPending(u, at, broken).0);
      MovesStays(u, DispatchPending(u, at, broken).0, id);
    } else {
      assert IsRunning(Emit(s, m), id) == IsRunning(s, id);
    }
  }

  lemma FinishStays(s: State, i: nat, m: Message, id: RequestId)
    requires Core(s) && i in s.active && i < |s.workers| && m.requestId in {None, Some(s.active[i])}
    ensures StaysEnded(s, Finish(s, i, Worker(WorkerState.Ready, None), m), id)
  {
    var r := Finish(s, i, Worker(WorkerState.Ready, None), m);
    assert IsRunning(s, s.active[i]);
    ForAppend(id, s.events, m);
    if IsRunning(r, id) {
      var w: nat :| w in r.active && r.active[w] == id;
      assert w in s.active && s.active[w] == id;
    }
  }

  lemma UnreadStays(s: State, i: nat, read: Read, at: real, broken: set<nat>, id: RequestId)
    requires Core(s) && i in s.active && i < |s.workers| && s.workers[i] == Worker(Busy, Some(s.active[i])) && !read.Got?
    ensures StaysEnded(s, PollWorker(s, i, Reply(read, at, broken)).0, id)
  {
    PollReadsNothing(s, i, read, at, broken);
    var (w, received) := Receive(s.workers[i], read);
    if received.Broke? {
      var m := Failure(FromWorker(i), s.active[i], received.code);
      ReportActiveKeeps(s, i, w, m);
      GiveUpProgress(s, i, w, m);
      ProgressMoves(s, Emit(Release(s, i, w), m));
      MovesStays(s, Emit(Release(s, i, w), m), id);
    }
  }

  lemma VisitStays(scripts: Scripts, s: System, i: nat, look: Look, at: real, broken: set<nat>, id: RequestId)
    requires SystemInv(scripts, s) && AtWorker(s, i) && CanLook(s.links[i], look)
    ensures StaysEnded(s.sched, NextVisit(s, i, look, at, broken).sched, id)
  {
    if i in s.sched.active {
      BusyOfActive(s.sched, i);
      if look.TakeHead? {
        HeadOfActive(scripts, s, i);
        ReadStays(scripts, s.sched, i, s.links[i].results[0], at, broken, id);
      } else {
        UnreadStays(s.sched, i, ReadOf(s.links[i], look), at, broken, id);
      }
    }
  }

  lemma ExpireStays(s: State, now: real, id: RequestId)
    requires Core(s)
    ensures StaysEnded(s, Expire(s, now), id)
  {
    ExpireKeeps(s, now);
    ExpireProgress(s, now);
    ProgressMoves(s, Expire(s, now));
    MovesStays(s, Expire(s, now), id);
  }

  lemma FailPendingStays(s: State, id: RequestId)
    requires Core(s)
    ensures StaysEnded(s, FailPendingWithoutHealthy(s), id)
  {
    FailPendingKeeps(s);
    FailPendingProgress(s);
    ProgressMoves(s, FailPendingWithoutHealthy(s));
    MovesStays(s, FailPendingWithoutHealthy(s), id);
  }

  lemma CancelStays(s: State, other: RequestId, id: RequestId)
    requires Core(s)
    ensures StaysEnded(s, Cancel(s, other).0, id)
  {
    CancelCore(s, other);
    if IndexOf(s.pending, other) < |s.pending| { CancelPendingMoves(s, other); } else { CancelActiveMoves(s, other); }
    MovesStays(s, Cancel(s, other).0, id);
  }

  lemma SubmitRuns(s: State, request: Request, now: real, broken: set<nat>, id: RequestId)
    ensures var r := Submit(s, request, now, broken).0;
      && (IsRunning(r, id) ==> IsRunning(s, id) || id !in s.submitted)
      && (id in s.submitted ==> IsQueued(r, id) == IsQueued(s, id))
      && s.submitted <= r.submitted && r.events == s.events
  {
    var (r, outcome) := Submit(s, request, now, broken);
    SubmitCases(s, request, now, broken);
    if w: nat :| w in r.active && r.active[w] == id {
      assert id == request.id || (w in s.active && s.active[w] == id);
    }
    if outcome.Queued? { JoinedQueue(s, r, request, now, id); }
  }

  lemma SubmitStays(s: State, request: Request, now: real, broken: set<nat>, id: RequestId)
    ensures StaysEnded(s, Submit(s, request, now, broken).0, id)
  {
    SubmitRuns(s, request, now, broken, id);
  }

  /* ---- Routing ---- */

  lemma HeadInFlow(s: System, id: RequestId)
    requires s.hand != [] && s.hand[0].requestId == Some(id)
    ensures Flow(s, id) == (At(s.consumed, id) + At(s.queues, id)) + [s.hand[0]]
                           + (For(id, s.hand[1..]) + For(id, s.sched.events))
    ensures Flow(s, id) != []
  {
  }

  // A stream's end is put last: nothing of it is left behind.
  lemma EndIsAlone(scripts: Scripts, s: System, id: RequestId, passed: seq<Message>, rest: seq<Message>)
    requires SystemInv(scripts, s) && s.hand != [] && Flow(s, id) == passed + [s.hand[0]] + rest
    requires s.hand[0].requestId == Some(id) && Terminal(s.hand[0].kind) && id !in s.lost
    ensures rest == [] && id in s.sched.submitted && Flow(s, id) == passed + [s.hand[0]]
    ensures ScriptOk(scripts(id), id, true) || ScriptOk(scripts(id), id, false)
  {
    FlowShape(scripts, s, id);
    EndIsLastOfFlow(passed, s.hand[0], rest, scripts(id), id);
  }

  lemma EndHasStopped(scripts: Scripts, s: System, id: RequestId, passed: seq<Message>, m: Message)
    requires RunningOk(scripts, s) && Shape(s.sched) && |s.links| == |s.sched.workers| && id !in s.lost
    requires Flow(s, id) == passed + [m] && Terminal(m.kind)
    requires ScriptOk(scripts(id), id, true) || ScriptOk(scripts(id), id, false)
    ensures !IsRunning(s.sched, id)
  {
    if w: nat :| w in s.sched.active && s.sched.active[w] == id {
      EndLeavesNoWire(scripts, s, w, passed, m);
      assert false;
    }
  }

  lemma EndLeavesNoWire(scripts: Scripts, s: System, w: nat, passed: seq<Message>, m: Message)
    requires w in s.sched.active && w < |s.links| && RunOkAt(scripts, s, w)
    requires var id := s.sched.active[w];
      && id !in s.lost && Flow(s, id) == passed + [m]
      && (ScriptOk(scripts(id), id, true) || ScriptOk(scripts(id), id, false))
    ensures !Terminal(m.kind)
  {
    var id := s.sched.active[w];
    RunningHasNoEnd(passed, m, Wire(scripts, s.links[w], id), scripts(id), id);
  }

  lemma PutFinishes(scripts: Scripts, s: System, id: RequestId)
    requires SystemInv(scripts, s) && s.hand != [] && s.hand[0].requestId == Some(id) && Terminal(s.hand[0].kind)
    requires id !in s.lost
    ensures For(id, s.hand[1..]) == [] && For(id, s.sched.events) == [] && Ended(s.sched, id)
  {
    var passed := At(s.consumed, id) + At(s.queues, id);
    HeadInFlow(s, id);
    EndIsAlone(scripts, s, id, passed, For(id, s.hand[1..]) + For(id, s.sched.events));
    EndHasStopped(scripts, s, id, passed, s.hand[0]);
  }

  lemma RunningHasNoEnd(passed: seq<Message>, m: Message, wire: seq<Message>, script: seq<Message>, id: RequestId)
    requires ScriptOk(script, id, true) || ScriptOk(script, id, false)
    requires passed + [m] + wire == script && wire != []
    ensures !Terminal(m.kind)
  {
    assert script[|passed|] == m;
  }

  lemma EndIsLastOfFlow(passed: seq<Message>, m: Message, rest: seq<Message>, script: seq<Message>, id: RequestId)
    requires Faithful(passed + [m] + rest, script) && (ScriptOk(script, id, true) || ScriptOk(script, id, false))
    requires Terminal(m.kind)
    ensures rest == []
  {
    var flow := passed + [m] + rest;
    assert flow[|passed|] == m;
    if flow <= script {
      assert script[|passed|] == m;
    } else {
      assert forall j :: 0 <= j < |flow| - 1 ==> flow[..|flow| - 1][j] == flow[j] == script[j];
      assert |flow| - 1 < |script|;
    }
  }

  lemma HeadBelongs(s: System, id: RequestId)
    requires s.hand != [] && s.hand[0].requestId == Some(id)
    ensures For(id, s.hand) != []
  {
  }

  // The dispatcher does not discard the head of a stream that is being delivered.
  lemma LookDelivers(scripts: Scripts, s: System, id: RequestId)
    requires SystemInv(scripts, s) && Delivering(s, id) && s.pc.Looking?
    ensures Delivering(NextLook(s), id)
  {
    if s.hand != [] && s.hand[0].requestId == Some(id) && id in s.queues {
      HeadBelongs(s, id);
      HeadStreamable(scripts, s);
    }
    LookDeliversOne(s, id);
  }

  lemma LookDeliversOne(s: System, id: RequestId)
    requires Delivering(s, id) && s.pc.Looking?
    requires s.hand != [] && s.hand[0].requestId == Some(id) && id in s.queues ==> id in s.streams && Streamable(s.hand[0].kind)
    ensures Delivering(NextLook(s), id)
  {
  }

  lemma CheckDelivers(s: System, id: RequestId)
    requires Delivering(s, id) && s.pc.Checking? && s.hand != []
    ensures Delivering(NextCheck(s), id)
  {
    if s.hand[0].requestId == Some(id) { HeadBelongs(s, id); }
  }

  lemma PutDelivers(scripts: Scripts, s: System, id: RequestId, s': System)
    requires SystemInv(scripts, s) && Delivering(s, id) && s.pc.Putting?
    requires var other := HeadId(s);
      s' == s.(queues := s.queues[other := At(s.queues, other) + [s.hand[0]]], hand := s.hand[1..],
               pc := if Terminal(s.hand[0].kind) then Popping(other) else Looking)
    requires HeadId(s) in s.queues
    ensures Delivering(s', id)
  {
    if HeadId(s) == id {
      HeadBelongs(s, id);
      if Terminal(s.hand[0].kind) { PutFinishes(scripts, s, id); }
    }
  }

  lemma DrainDelivers(s: System, id: RequestId, s': System)
    requires Delivering(s, id) && s.pc.Draining? && Control(s) && HeadId(s) in s.queues
    requires s' == s.(queues := s'.queues, hand := s'.hand, pc := s'.pc) && s'.queues.Keys == s.queues.Keys
    requires (s'.hand == s.hand && s'.pc == s.pc) || (s'.hand == s.hand[1..] && s'.pc.Looking?)
    ensures Delivering(s', id)
  {
    assert s'.hand == s.hand[1..] ==> (For(id, s.hand) == [] ==> For(id, s'.hand) == []);
  }

  // The scheduler worked on, and its events may have been collected.
  lemma WorkDelivers(s: System, r: System, id: RequestId)
    requires Delivering(s, id) && StaysEnded(s.sched, r.sched, id)
    requires s.pc.AtTop? || s.pc.Polling?
    requires r == s.(sched := r.sched, links := r.links, pc := r.pc) && (r.pc.AtTop? || r.pc.Polling?)
    ensures Delivering(r, id) && Delivering(Collected(r), id)
  {
    CollectPlaces(r, id);
    ForConcat(id, r.hand, r.sched.events);
  }

  lemma PollBeginDelivers(s: System, now: real, id: RequestId, r: State)
    requires Core(s.sched) && Delivering(s, id) && s.pc.AtTop? && r == Expire(s.sched, now)
    ensures var s1 := s.(sched := r, links := Relink(s.links, s.sched.active, r.active), pc := Polling(0));
      Delivering(s1, id) && Delivering(Collected(s1), id)
  {
    ExpireStays(s.sched, now, id);
    WorkDelivers(s, s.(sched := r, links := Relink(s.links, s.sched.active, r.active), pc := Polling(0)), id);
  }

  lemma PollEndDelivers(s: System, id: RequestId, r: State)
    requires Core(s.sched) && Delivering(s, id) && s.pc.Polling? && r == FailPendingWithoutHealthy(s.sched)
    ensures Delivering(Collected(s.(sched := r)), id)
  {
    FailPendingStays(s.sched, id);
    WorkDelivers(s, s.(sched := r), id);
  }

  lemma VisitDelivers(scripts: Scripts, s: System, i: nat, look: Look, at: real, broken: set<nat>, id: RequestId)
    requires SystemInv(scripts, s) && s.pc == Polling(i) && AtWorker(s, i) && CanLook(s.links[i], look)
    requires Delivering(s, id)
    ensures Delivering(NextVisit(s, i, look, at, broken), id)
  {
    VisitStays(scripts, s, i, look, at, broken, id);
    WorkDelivers(s, NextVisit(s, i, look, at, broken), id);
  }

  lemma CancelDelivers(s: System, other: RequestId, id: RequestId, s': System)
    requires Core(s.sched) && Delivering(s, id) && LockFree(s) && other != id
    requires var r := Cancel(s.sched, other).0;
      s' == s.(sched := r, links := s'.links, futures := s.futures - {other}, streams := s.streams - {other})
    ensures Delivering(s', id)
  {
    CancelStays(s.sched, other, id);
  }

  lemma SubmitDelivers(s: System, request: Request, now: real, broken: set<nat>, asStream: bool, id: RequestId)
    requires UntouchedOk(s) && Delivering(s, id) && LockFree(s)
    ensures Delivering(NextSubmit(s, request, now, broken, asStream), id)
  {
    SubmitStays(s.sched, request, now, broken, id);
    SubmitCases(s.sched, request, now, broken);
  }

  // The other steps leave the batch, the events and the scheduler's lists as they are.
  lemma QuietStepDelivers(bounds: Bounds, scripts: Scripts, s: System, step: Step, id: RequestId)
    requires Delivering(s, id) && Control(s) && Enabled(bounds, scripts, s, step) && !Spoils(s, step, id)
    requires !OfScheduler(step) && !step.RouteLook? && !step.RoutePut?
    ensures Delivering(Next(bounds, scripts, s, step), id)
  {
    if step.RouteCheck? { CheckDelivers(s, id); }
    else if step.DrainOne? || step.DrainDone? { DrainDelivers(s, id, NextDrain(s)); }
    else { StillDelivers(bounds, scripts, s, step, id); }
  }

  lemma StillDelivers(bounds: Bounds, scripts: Scripts, s: System, step: Step, id: RequestId)
    requires Delivering(s, id) && Enabled(bounds, scripts, s, step) && !Spoils(s, step, id)
    requires OfChild(step) || step.Consume? || step.RouteRetry? || step.RoutePop? || step.RouteGiveUp? || step.StopSignal?
    ensures Delivering(Next(bounds, scripts, s, step), id)
  {
  }

  lemma SchedulingStepDelivers(bounds: Bounds, scripts: Scripts, s: System, step: Step, id: RequestId)
    requires Core(s.sched) && UntouchedOk(s) && Delivering(s, id) && Enabled(bounds, scripts, s, step) && !Spoils(s, step, id)
    requires OfScheduler(step) && !step.Visit?
    ensures Delivering(Next(bounds, scripts, s, step), id)
  {
    if step.SubmitRequest? { SubmitDelivers(s, step.request, step.now, step.broken, step.asStream, id); }
    else if step.CancelRequest? { if NextCancel(s, step.id) != s { CancelDelivers(s, step.id, id, NextCancel(s, step.id)); } }
    else if step.PollBegin? { PollBeginDelivers(s, step.now, id, Expire(s.sched, step.now)); }
    else if step.PollEnd? { PollEndDelivers(s, id, FailPendingWithoutHealthy(s.sched)); }
  }

  lemma StepDelivers(bounds: Bounds, scripts: Scripts, s: System, step: Step, id: RequestId)
    requires SystemInv(scripts, s) && Delivering(s, id) && Enabled(bounds, scripts, s, step) && !Spoils(s, step, id)
    ensures Delivering(Next(bounds, scripts, s, step), id)
  {
    if step.Visit? { VisitDelivers(scripts, s, s.pc.next, step.look, step.at, step.broken, id); }
    else if OfScheduler(step) { SchedulingStepDelivers(bounds, scripts, s, step, id); }
    else if step.RouteLook? { LookDelivers(scripts, s, id); }
    else if step.RoutePut? { PutDelivers(scripts, s, id, NextPut(s)); }
    else { QuietStepDelivers(bounds, scripts, s, step, id); }
  }

  // A run in which nobody gives up on `id`.
  ghost predicate CalmRun(bounds: Bounds, scripts: Scripts, s: System, steps: seq<Step>, r: System, id: RequestId)
    decreases |steps|
  {
    if steps == [] then r == s
    else
      && Enabled(bounds, scripts, s, steps[0]) && !Spoils(s, steps[0], id)
      && CalmRun(bounds, scripts, Next(bounds, scripts, s, steps[0]), steps[1..], r, id)
  }

  lemma {:induction false} CalmDelivers(bounds: Bounds, scripts: Scripts, s: System, steps: seq<Step>, r: System, id: RequestId)
    requires SystemInv(scripts, s) && Delivering(s, id) && CalmRun(bounds, scripts, s, steps, r, id)
    ensures Delivering(r, id) && SystemInv(scripts, r)
    decreases |steps|
  {
    if steps != [] {
      StepKeepsInv(bounds, scripts, s, steps[0]);
      StepDelivers(bounds, scripts, s, steps[0], id);
      CalmDelivers(bounds, scripts, Next(bounds, scripts, s, steps[0]), steps[1..], r, id);
    }
  }

  /** Until a stream is cancelled, timed out by backpressure or stopped, nothing of it is discarded: whatever
      other requests, children and timeouts do, while it runs all of its script is in one of the places from
      the consumer back to the child, and when it has ended its consumer is owed a part of the script from the
      start, with at most one failure after it. */
  lemma NothingDiscarded(bounds: Bounds, scripts: Scripts, s0: System, steps: seq<Step>, s: System, id: RequestId)
    requires SystemInit(s0) && CalmRun(bounds, scripts, s0, steps, s, id) && id in s.queues
    ensures id !in s.lost
    ensures forall w: nat :: w in s.sched.active && s.sched.active[w] == id && w < |s.links| ==>
      Flow(s, id) + Wire(scripts, s.links[w], id) == scripts(id)
    ensures Ended(s.sched, id) ==> Faithful(Flow(s, id), scripts(id))
  {
    InitIsOk(scripts, s0);
    CalmDelivers(bounds, scripts, s0, steps, s, id);
    forall w: nat | w in s.sched.active && s.sched.active[w] == id && w < |s.links|
      ensures Flow(s, id) + Wire(scripts, s.links[w], id) == scripts(id)
    {
      assert RunOkAt(scripts, s, w);
    }
  }
}
