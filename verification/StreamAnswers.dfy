/** The consumer of a stream that was given up gets an answer: one backpressure error, and nothing after it. */
module StreamAnswers {
  import opened Messages
  import opened SchedulerSpec
  import opened StreamSystem
  import opened StreamInvariant
  import opened StreamTheorems
  import opened StreamRouting
  import opened StreamAborts
  import opened StreamTables
  import opened StreamDelivery

  // The last message, and no other, is the error.
  ghost predicate Answered(ms: seq<Message>, id: RequestId) {
    && ms != [] && ms[|ms| - 1] == Failure(FromApi, id, StreamBackpressureTimeout)
    && forall k :: 0 <= k < |ms| - 1 ==> ms[k] != Failure(FromApi, id, StreamBackpressureTimeout)
  }

  ghost predicate AllChunks(ms: seq<Message>) {
    forall k :: 0 <= k < |ms| ==> ms[k].kind.StreamChunk?
  }

  // The dispatcher is emptying the queue of `id`.
  predicate Drains(s: System, id: RequestId) {
    s.pc.Draining? && s.hand != [] && s.hand[0].requestId == Some(id)
  }

  ghost predicate AnswersOk(s: System) {
    && s.abandoned <= s.lost
    && (forall id :: id in s.abandoned ==> if Drains(s, id) then AllChunks(Seen(s, id)) else Answered(Seen(s, id), id))
    && (s.pc.Draining? ==> s.hand != [] && s.hand[0].requestId.Some? && s.hand[0].requestId.value in s.abandoned)
  }

  /* ---- Giving up ---- */

  // What has gone to the queue of a stream while a message of it waits for a put.
  lemma PuttingSeesChunks(scripts: Scripts, s: System)
    requires SystemInv(scripts, s) && s.pc.Putting?
    ensures s.hand != [] && s.hand[0].requestId.Some? && AllChunks(Seen(s, HeadId(s)))
  {
    var id := HeadId(s);
    FlowShape(scripts, s, id);
    BeforeHead(Seen(s, id), s.hand[0], For(id, s.hand[1..]) + For(id, s.sched.events), Flow(s, id), scripts(id), id);
  }

  lemma BeforeHead(passed: seq<Message>, m: Message, rest: seq<Message>, flow: seq<Message>, script: seq<Message>, id: RequestId)
    requires flow == passed + [m] + rest && Faithful(flow, script)
    requires ScriptOk(script, id, true) || ScriptOk(script, id, false)
    ensures AllChunks(passed)
  {
    assert passed < script by {
      if !(flow <= script) { assert passed <= flow[..|flow| - 1]; }
    }
    forall k | 0 <= k < |passed| ensures passed[k].kind.StreamChunk? {
      assert passed[k] == script[k] && k < |script| - 1;
    }
  }

  lemma GiveUpAnswers(s: System)
    requires AnswersOk(s) && s.pc.Putting? && s.hand != [] && s.hand[0].requestId.Some?
    requires AllChunks(Seen(s, HeadId(s)))
    ensures AnswersOk(NextGiveUp(s))
  {
    var r := NextGiveUp(s);
    forall id | id in r.abandoned ensures if Drains(r, id) then AllChunks(Seen(r, id)) else Answered(Seen(r, id), id) {
      assert Seen(r, id) == Seen(s, id);
    }
  }

  /* ---- Draining ---- */

  // Only the stream that is drained has a new flow.
  ghost predicate OnlyFlow(s: System, r: System, id: RequestId) {
    r.abandoned == s.abandoned && r.lost == s.lost && forall x :: x != id ==> Seen(r, x) == Seen(s, x)
  }

  lemma DrainFlow(s: System, id: RequestId)
    requires s.pc.Draining? && s.hand != [] && s.hand[0].requestId == Some(id)
    ensures OnlyFlow(s, NextDrain(s), id)
  {
  }

  lemma ChunksBoth(c: seq<Message>, q: seq<Message>)
    ensures AllChunks(c + q) <==> AllChunks(c) && AllChunks(q)
  {
    assert forall k :: 0 <= k < |c| ==> c[k] == (c + q)[k];
    assert forall k :: 0 <= k < |q| ==> q[k] == (c + q)[|c| + k];
  }

  lemma DrainAnswers(s: System)
    requires AnswersOk(s) && s.pc.Draining?
    ensures AnswersOk(NextDrain(s))
  {
    var r, id := NextDrain(s), HeadId(s);
    var c, q := At(s.consumed, id), At(s.queues, id);
    DrainFlow(s, id);
    assert Drains(s, id) && AllChunks(Seen(s, id));
    ChunksBoth(c, q);
    if q == [] {
      LastAnswer(c, id);
      DrainedOk(s, r, id);
    } else {
      ChunksBoth(c, q[1..]);
      DrainingOk(s, r, id);
    }
  }

  lemma DrainedOk(s: System, r: System, id: RequestId)
    requires AnswersOk(s) && Drains(s, id) && OnlyFlow(s, r, id) && r.pc.Looking? && Answered(Seen(r, id), id)
    ensures AnswersOk(r)
  {
  }

  lemma DrainingOk(s: System, r: System, id: RequestId)
    requires AnswersOk(s) && Drains(s, id) && OnlyFlow(s, r, id) && r.pc == s.pc && r.hand == s.hand && AllChunks(Seen(r, id))
    ensures AnswersOk(r)
  {
  }

  lemma LastAnswer(c: seq<Message>, id: RequestId)
    requires AllChunks(c)
    ensures Answered(c + [Failure(FromApi, id, StreamBackpressureTimeout)], id)
  {
  }

  /* ---- The other steps ---- */

  // The flows of streams given up are as they were, and so is the dispatcher if it is emptying a queue.
  ghost predicate Untouched(s: System, r: System) {
    && r.abandoned == s.abandoned && s.lost <= r.lost
    && (forall id :: id in s.abandoned ==> Seen(r, id) == Seen(s, id))
    && (r.pc.Draining? || s.pc.Draining? ==> r.pc == s.pc && r.hand == s.hand)
  }

  lemma UntouchedAnswers(s: System, r: System)
    requires AnswersOk(s) && Untouched(s, r)
    ensures AnswersOk(r)
  {
    forall id | id in r.abandoned ensures if Drains(r, id) then AllChunks(Seen(r, id)) else Answered(Seen(r, id), id) {
      assert Drains(r, id) == Drains(s, id);
    }
  }

  lemma ConsumeAnswers(s: System, id: RequestId)
    requires At(s.queues, id) != []
    ensures Untouched(s, NextConsume(s, id))
  {
    var r := NextConsume(s, id);
    forall x ensures Seen(r, x) == Seen(s, x) {
      assert At(s.queues, id) == [At(s.queues, id)[0]] + At(s.queues, id)[1..];
    }
  }

  // A put is never for a stream given up.
  lemma PutAnswers(s: System)
    requires Control(s) && s.pc.Putting? && s.abandoned <= s.lost
    ensures Untouched(s, NextPut(s))
  {
    var r := NextPut(s);
    forall x | x in s.abandoned ensures Seen(r, x) == Seen(s, x) { assert x != HeadId(s); }
  }

  lemma SubmitAnswers(s: System, request: Request, now: real, broken: set<nat>, asStream: bool)
    requires LockFree(s)
    ensures Untouched(s, NextSubmit(s, request, now, broken, asStream))
  {
    var r := NextSubmit(s, request, now, broken, asStream);
    forall x ensures Seen(r, x) == Seen(s, x) { assert At(r.queues, x) == At(s.queues, x); }
  }

  lemma VisitAnswers(s: System, i: nat, look: Look, at: real, broken: set<nat>)
    requires AtWorker(s, i) && CanLook(s.links[i], look)
    ensures Untouched(s, NextVisit(s, i, look, at, broken))
  {
    SameSeen(s, NextVisit(s, i, look, at, broken));
  }

  lemma SameSeen(s: System, r: System)
    requires r.queues == s.queues && r.consumed == s.consumed
    ensures forall id :: Seen(r, id) == Seen(s, id)
  {
  }

  lemma PollAnswers(s: System, now: real)
    ensures s.pc.AtTop? ==> Untouched(s, NextPollBegin(s, now))
    ensures s.pc.Polling? ==> Untouched(s, NextPollEnd(s))
  {
    SameSeen(s, NextPollBegin(s, now));
    SameSeen(s, NextPollEnd(s));
  }

  lemma CancelAnswers(s: System, id: RequestId)
    ensures Untouched(s, NextCancel(s, id))
  {
    SameSeen(s, NextCancel(s, id));
  }

  lemma CloseAnswers(s: System)
    ensures Untouched(s, NextClose(s))
  {
    SameSeen(s, NextClose(s));
  }

  lemma SchedulerAnswers(bounds: Bounds, scripts: Scripts, s: System, step: Step)
    requires Enabled(bounds, scripts, s, step) && OfScheduler(step)
    ensures Untouched(s, Next(bounds, scripts, s, step))
  {
    if step.SubmitRequest? {
      SubmitAnswers(s, step.request, step.now, step.broken, step.asStream);
    } else if step.Visit? {
      VisitAnswers(s, s.pc.next, step.look, step.at, step.broken);
    } else if step.CancelRequest? {
      CancelAnswers(s, step.id);
    } else if step.CloseScheduler? {
      CloseAnswers(s);
    } else {
      PollAnswers(s, if step.PollBegin? then step.now else 0.0);
    }
  }

  lemma LookAnswers(s: System)
    requires s.pc.Looking?
    ensures Untouched(s, NextLook(s))
  {
    LookParts(s, NextLook(s));
    SameSeen(s, NextLook(s));
  }

  lemma CheckAnswers(s: System)
    requires s.pc.Checking? && s.hand != []
    ensures Untouched(s, NextCheck(s))
  {
    CheckParts(s, NextCheck(s));
    SameSeen(s, NextCheck(s));
  }

  lemma ChildAnswers(bounds: Bounds, scripts: Scripts, s: System, step: Step)
    requires Enabled(bounds, scripts, s, step) && OfChild(step)
    ensures Untouched(s, Next(bounds, scripts, s, step))
  {
    ChildParts(bounds, scripts, s, step);
    SameSeen(s, Next(bounds, scripts, s, step));
  }

  lemma StepAnswers(bounds: Bounds, scripts: Scripts, s: System, step: Step)
    requires SystemInv(scripts, s) && AnswersOk(s) && Enabled(bounds, scripts, s, step)
    ensures AnswersOk(Next(bounds, scripts, s, step))
  {
    if step.RouteGiveUp? {
      PuttingSeesChunks(scripts, s);
      GiveUpAnswers(s);
    } else if step.DrainOne? || step.DrainDone? {
      DrainAnswers(s);
    } else {
      OtherAnswers(bounds, scripts, s, step);
      UntouchedAnswers(s, Next(bounds, scripts, s, step));
    }
  }

  lemma OtherAnswers(bounds: Bounds, scripts: Scripts, s: System, step: Step)
    requires Control(s) && s.abandoned <= s.lost && Enabled(bounds, scripts, s, step)
    requires !step.RouteGiveUp? && !step.DrainOne? && !step.DrainDone?
    ensures Untouched(s, Next(bounds, scripts, s, step))
  {
    if OfChild(step) {
      ChildAnswers(bounds, scripts, s, step);
    } else if OfScheduler(step) {
      SchedulerAnswers(bounds, scripts, s, step);
    } else {
      LocalAnswers(bounds, scripts, s, step);
    }
  }

  lemma LocalAnswers(bounds: Bounds, scripts: Scripts, s: System, step: Step)
    requires Control(s) && s.abandoned <= s.lost && Enabled(bounds, scripts, s, step)
    requires !OfChild(step) && !OfScheduler(step) && !step.RouteGiveUp? && !step.DrainOne? && !step.DrainDone?
    ensures Untouched(s, Next(bounds, scripts, s, step))
  {
    if step.Consume? {
      ConsumeAnswers(s, step.id);
    } else if step.RoutePut? {
      PutAnswers(s);
    } else if step.RouteLook? {
      LookAnswers(s);
    } else if step.RouteCheck? {
      CheckAnswers(s);
    } else {
      SameSeen(s, Next(bounds, scripts, s, step));
    }
  }

  lemma {:induction false} RunAnswers(bounds: Bounds, scripts: Scripts, s: System, steps: seq<Step>, r: System)
    requires SystemInv(scripts, s) && AnswersOk(s) && IsRun(bounds, scripts, s, steps, r)
    ensures AnswersOk(r)
    decreases |steps|
  {
    if steps != [] {
      StepAnswers(bounds, scripts, s, steps[0]);
      StepKeepsInv(bounds, scripts, s, steps[0]);
      RunAnswers(bounds, scripts, Next(bounds, scripts, s, steps[0]), steps[1..], r);
    }
  }

  /** In every reachable state the consumer of a stream that was given up, and whose queue the dispatcher is not just
      emptying, has before it or behind it exactly one `stream_backpressure_timeout` error, as the last message of all. */
  lemma GivenUpIsAnswered(bounds: Bounds, scripts: Scripts, s: System, id: RequestId)
    requires Reachable(bounds, scripts, s) && id in s.abandoned && !Drains(s, id)
    ensures var ms := At(s.consumed, id) + At(s.queues, id);
      && ms != [] && ms[|ms| - 1] == Failure(FromApi, id, StreamBackpressureTimeout)
      && forall k :: 0 <= k < |ms| - 1 ==> ms[k] != Failure(FromApi, id, StreamBackpressureTimeout)
  {
    var s0: System, steps: seq<Step> :| SystemInit(s0) && IsRun(bounds, scripts, s0, steps, s);
    InitIsOk(scripts, s0);
    RunAnswers(bounds, scripts, s0, steps, s);
    assert Answered(Seen(s, id), id);
  }

  /* ---- Streams that are not given up ---- */

  // The stream is still in the table, or its end is with the consumer.
  ghost predicate Reaching(s: System, id: RequestId) {
    id in s.queues ==> (id in s.streams && s.pc != Popping(id)) || HasEnd(Seen(s, id), id)
  }

  // What the consumer has or can get only grows, and the stream stays in the table unless its end is among it.
  ghost predicate StaysReaching(s: System, r: System, id: RequestId) {
    && (id in r.queues ==> id in s.queues || (id in r.streams && r.pc != Popping(id)))
    && (HasEnd(Seen(s, id), id) ==> HasEnd(Seen(r, id), id))
    && (id in s.queues && id in s.streams && s.pc != Popping(id) ==>
          (id in r.streams && r.pc != Popping(id)) || HasEnd(Seen(r, id), id))
  }

  lemma StaysReachingKeeps(s: System, r: System, id: RequestId)
    requires Reaching(s, id) && StaysReaching(s, r, id)
    ensures Reaching(r, id)
  {
  }

  lemma PutReaches(s: System, id: RequestId)
    requires s.pc.Putting? && s.hand != [] && s.hand[0].requestId.Some?
    requires s.hand[0].requestId.value in s.queues
    ensures StaysReaching(s, NextPut(s), id)
  {
    var r, m := NextPut(s), s.hand[0];
    if m.requestId == Some(id) {
      assert Seen(r, id) == Seen(s, id) + [m];
      EndKept(Seen(s, id), m, id);
    } else {
      assert Seen(r, id) == Seen(s, id);
    }
  }

  lemma EndKept(ms: seq<Message>, m: Message, id: RequestId)
    requires m.requestId == Some(id)
    ensures HasEnd(ms, id) ==> HasEnd(ms + [m], id)
    ensures Terminal(m.kind) ==> HasEnd(ms + [m], id)
  {
    if HasEnd(ms, id) {
      var k :| 0 <= k < |ms| && ms[k].requestId == Some(id) && Terminal(ms[k].kind);
      assert (ms + [m])[k] == ms[k];
    }
    assert (ms + [m])[|ms|] == m;
  }

  lemma ConsumeReaches(s: System, other: RequestId, id: RequestId)
    requires At(s.queues, other) != []
    ensures StaysReaching(s, NextConsume(s, other), id)
  {
    assert At(s.queues, other) == [At(s.queues, other)[0]] + At(s.queues, other)[1..];
    assert Seen(NextConsume(s, other), id) == Seen(s, id);
  }

  // The queue that is emptied is not that of `id`.
  lemma DrainReaches(s: System, id: RequestId)
    requires s.pc.Draining? && s.hand != [] && s.hand[0].requestId.Some? && s.hand[0].requestId.value in s.queues
    requires s.hand[0].requestId != Some(id)
    ensures StaysReaching(s, NextDrain(s), id)
  {
    assert Seen(NextDrain(s), id) == Seen(s, id);
  }

  lemma SubmitReaches(s: System, request: Request, now: real, broken: set<nat>, asStream: bool, id: RequestId)
    requires LockFree(s) && (s.pc == Popping(id) ==> id in s.sched.submitted)
    ensures StaysReaching(s, NextSubmit(s, request, now, broken, asStream), id)
  {
    var r := NextSubmit(s, request, now, broken, asStream);
    assert Seen(r, id) == Seen(s, id);
  }

  lemma SchedulerReaches(bounds: Bounds, scripts: Scripts, s: System, step: Step, id: RequestId)
    requires Enabled(bounds, scripts, s, step) && OfScheduler(step) && !step.SubmitRequest? && step != CancelRequest(id)
    requires !s.stopped
    ensures StaysReaching(s, Next(bounds, scripts, s, step), id)
  {
    if step.Visit? {
      VisitTablesKept(s, s.pc.next, step.look, step.at, step.broken);
    } else if step.CancelRequest? {
      CancelTablesKept(s, step.id, id);
    } else {
      PollTablesKept(s, if step.PollBegin? then step.now else 0.0);
    }
  }

  // The dispatcher is not left at the point where it removes a stream.
  ghost predicate TablesKept(s: System, r: System) {
    r.queues == s.queues && r.consumed == s.consumed && r.streams == s.streams && (r.pc == s.pc || !r.pc.Popping?)
  }

  lemma VisitTablesKept(s: System, i: nat, look: Look, at: real, broken: set<nat>)
    requires AtWorker(s, i) && CanLook(s.links[i], look)
    ensures TablesKept(s, NextVisit(s, i, look, at, broken))
  {
  }

  lemma PollTablesKept(s: System, now: real)
    ensures TablesKept(s, NextPollBegin(s, now)) && TablesKept(s, NextPollEnd(s))
  {
  }

  lemma CancelTablesKept(s: System, other: RequestId, id: RequestId)
    requires other != id
    ensures var r := NextCancel(s, other);
      r.queues == s.queues && r.consumed == s.consumed && r.pc == s.pc && (id in s.streams ==> id in r.streams)
  {
  }

  lemma RoutingReaches(bounds: Bounds, scripts: Scripts, s: System, step: Step, id: RequestId)
    requires Enabled(bounds, scripts, s, step) && Delivering(s, id) && Control(s) && Reaching(s, id)
    requires !OfChild(step) && !OfScheduler(step) && !Spoils(s, step, id)
    ensures Reaching(Next(bounds, scripts, s, step), id)
  {
    var r := Next(bounds, scripts, s, step);
    if step.RoutePut? {
      PutReaches(s, id);
    } else if step.Consume? {
      ConsumeReaches(s, step.id, id);
    } else if step.DrainOne? || step.DrainDone? {
      if id in s.queues { DrainReaches(s, id); }
    } else if step.RouteLook? {
      LookParts(s, r);
    } else if step.RouteCheck? {
      CheckParts(s, r);
    }
  }

  lemma StepReaches(bounds: Bounds, scripts: Scripts, s: System, step: Step, id: RequestId)
    requires SystemInv(scripts, s) && Delivering(s, id) && Reaching(s, id)
    requires Enabled(bounds, scripts, s, step) && !Spoils(s, step, id)
    ensures Reaching(Next(bounds, scripts, s, step), id)
  {
    if OfChild(step) {
      ChildParts(bounds, scripts, s, step);
    } else if step.SubmitRequest? {
      SubmitReaches(s, step.request, step.now, step.broken, step.asStream, id);
    } else if OfScheduler(step) {
      SchedulerReaches(bounds, scripts, s, step, id);
    } else {
      RoutingReaches(bounds, scripts, s, step, id);
    }
  }

  lemma {:induction false} CalmReaches(bounds: Bounds, scripts: Scripts, s: System, steps: seq<Step>, r: System, id: RequestId)
    requires SystemInv(scripts, s) && Delivering(s, id) && Reaching(s, id) && CalmRun(bounds, scripts, s, steps, r, id)
    ensures Reaching(r, id)
    decreases |steps|
  {
    if steps != [] {
      StepKeepsInv(bounds, scripts, s, steps[0]);
      StepDelivers(bounds, scripts, s, steps[0], id);
      StepReaches(bounds, scripts, s, steps[0], id);
      CalmReaches(bounds, scripts, Next(bounds, scripts, s, steps[0]), steps[1..], r, id);
    }
  }

  lemma {:induction false} CalmIsRun(bounds: Bounds, scripts: Scripts, s: System, steps: seq<Step>, r: System, id: RequestId)
    requires CalmRun(bounds, scripts, s, steps, r, id)
    ensures IsRun(bounds, scripts, s, steps, r)
    decreases |steps|
  {
    if steps != [] { CalmIsRun(bounds, scripts, Next(bounds, scripts, s, steps[0]), steps[1..], r, id); }
  }

  /** The consumer of a stream that is not cancelled, given up or stopped has the end of the stream, or a failure, before
      it or behind it, as soon as the stream has left the table; until then the request waits or runs, or its end is on its
      way to the consumer, unless the scheduler dropped it. */
  lemma ConsumerIsAnswered(bounds: Bounds, scripts: Scripts, s0: System, steps: seq<Step>, s: System, id: RequestId)
    requires SystemInit(s0) && CalmRun(bounds, scripts, s0, steps, s, id) && id in s.queues
    ensures if id in s.streams then Tracked(s, id) || s.pc == Popping(id)
            else HasEnd(At(s.consumed, id) + At(s.queues, id), id)
  {
    InitIsOk(scripts, s0);
    CalmReaches(bounds, scripts, s0, steps, s, id);
    if id in s.streams {
      CalmIsRun(bounds, scripts, s0, steps, s, id);
      TablesAgree(bounds, scripts, s, id);
    } else {
      assert HasEnd(Seen(s, id), id);
    }
  }
}
