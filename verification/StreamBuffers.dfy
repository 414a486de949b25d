/** Buffering is bounded: how many chunks of one stream can be produced and not yet consumed. */
module StreamBuffers {
  import opened Messages
  import opened WorkerModel
  import opened SchedulerSpec
  import opened SchedulerInvariants
  import opened SchedulerProgress
  import opened StreamSystem
  import opened StreamInvariant
  import opened StreamScheduling
  import opened StreamVisits
  import opened StreamTheorems

  // How many chunks of `id` are among the messages.
  function Chunks(id: RequestId, ms: seq<Message>): nat {
    if ms == [] then 0
    else (if ms[0].requestId == Some(id) && ms[0].kind.StreamChunk? then 1 else 0) + Chunks(id, ms[1..])
  }

  lemma {:induction false} ChunksConcat(id: RequestId, a: seq<Message>, b: seq<Message>)
    ensures Chunks(id, a + b) == Chunks(id, a) + Chunks(id, b)
  {
    if a == [] {
      assert a + b == b;
    } else {
      assert (a + b)[1..] == a[1..] + b;
      ChunksConcat(id, a[1..], b);
    }
  }

  lemma {:induction false} NoChunks(id: RequestId, ms: seq<Message>)
    requires forall k :: 0 <= k < |ms| ==> !ms[k].kind.StreamChunk?
    ensures Chunks(id, ms) == 0
  {
    if ms != [] { NoChunks(id, ms[1..]); }
  }

  lemma {:induction false} ChunksAtMost(id: RequestId, ms: seq<Message>)
    ensures Chunks(id, ms) <= |ms|
  {
    if ms != [] { ChunksAtMost(id, ms[1..]); }
  }

  lemma {:induction false} ChunksOfNone(id: RequestId, ms: seq<Message>)
    requires For(id, ms) == []
    ensures Chunks(id, ms) == 0
  {
    if ms != [] { ChunksOfNone(id, ms[1..]); }
  }

  ghost predicate AtMostOne(s: System) {
    forall id :: Chunks(id, s.hand) + Chunks(id, s.sched.events) <= 1
  }

  // A worker still to be visited in this poll has no chunk among the events.
  ghost predicate NotYetVisited(s: System) {
    s.pc.Polling? ==>
      forall w: nat :: w in s.sched.active && s.pc.next <= w ==> Chunks(s.sched.active[w], s.sched.events) == 0
  }

  ghost predicate Within(bounds: Bounds, s: System) {
    && (forall w :: 0 <= w < |s.links| ==> |s.links[w].results| <= bounds.ipc)
    && (forall id :: |At(s.queues, id)| <= bounds.api)
  }

  ghost predicate BuffersOk(bounds: Bounds, s: System) {
    AtMostOne(s) && NotYetVisited(s) && Within(bounds, s)
  }

  /* ---- Links and queues ---- */

  lemma RelinkWithin(links: seq<Link>, before: map<nat, RequestId>, after: map<nat, RequestId>, w: nat)
    requires w < |links|
    ensures |Relink(links, before, after)[w].results| <= |links[w].results|
  {
  }

  lemma VisitLinks(s: System, i: nat, look: Look, at: real, broken: set<nat>, w: nat)
    requires AtWorker(s, i) && CanLook(s.links[i], look) && w < |s.links|
    ensures |NextVisit(s, i, look, at, broken).links| == |s.links|
    ensures |NextVisit(s, i, look, at, broken).links[w].results| <= |s.links[w].results|
  {
    if i in s.sched.active {
      var reply := Reply(ReadOf(s.links[i], look), at, broken);
      var ended := EndsRequest(Receive(s.sched.workers[i], reply.read).1);
      var r := PollWorker(s.sched, i, reply).0;
      RelinkWithin(AfterLook(s.links, i, look), if ended then s.sched.active - {i} else s.sched.active, r.active, w);
    }
  }

  lemma LinksWithin(bounds: Bounds, scripts: Scripts, s: System, step: Step, w: nat)
    requires Enabled(bounds, scripts, s, step) && w < |s.links| && |s.links[w].results| <= bounds.ipc
    requires step.ChildPut? ==> |s.links[step.w].child.held| <= 1
    ensures |Next(bounds, scripts, s, step).links| == |s.links|
    ensures |Next(bounds, scripts, s, step).links[w].results| <= bounds.ipc
  {
    if OfScheduler(step) && !step.PollEnd? {
      SchedulingLinks(bounds, scripts, s, step, w);
    } else {
      OtherLinks(bounds, scripts, s, step, w);
    }
  }

  lemma SchedulingLinks(bounds: Bounds, scripts: Scripts, s: System, step: Step, w: nat)
    requires Enabled(bounds, scripts, s, step) && w < |s.links| && OfScheduler(step) && !step.PollEnd?
    ensures |Next(bounds, scripts, s, step).links| == |s.links|
    ensures |Next(bounds, scripts, s, step).links[w].results| <= |s.links[w].results|
  {
    if step.Visit? {
      VisitLinks(s, s.pc.next, step.look, step.at, step.broken, w);
    } else if step.SubmitRequest? {
      SubmitLinks(s, step.request, step.now, step.broken, step.asStream, w);
    } else if step.CancelRequest? {
      CancelLinks(s, step.id, w);
    } else if step.PollBegin? {
      PollBeginLinks(s, step.now, w);
    } else {
      CloseLinks(s, w);
    }
  }

  lemma CancelLinks(s: System, id: RequestId, w: nat)
    requires w < |s.links|
    ensures |NextCancel(s, id).links| == |s.links| && |NextCancel(s, id).links[w].results| <= |s.links[w].results|
  {
  }

  lemma PollBeginLinks(s: System, now: real, w: nat)
    requires w < |s.links|
    ensures |NextPollBegin(s, now).links| == |s.links| && |NextPollBegin(s, now).links[w].results| <= |s.links[w].results|
  {
  }

  lemma CloseLinks(s: System, w: nat)
    requires w < |s.links|
    ensures |NextClose(s).links| == |s.links| && |NextClose(s).links[w].results| <= |s.links[w].results|
  {
  }

  lemma SubmitLinks(s: System, request: Request, now: real, broken: set<nat>, asStream: bool, w: nat)
    requires w < |s.links|
    ensures |NextSubmit(s, request, now, broken, asStream).links| == |s.links|
    ensures |NextSubmit(s, request, now, broken, asStream).links[w].results| <= |s.links[w].results|
  {
  }

  lemma OtherLinks(bounds: Bounds, scripts: Scripts, s: System, step: Step, w: nat)
    requires Enabled(bounds, scripts, s, step) && w < |s.links| && |s.links[w].results| <= bounds.ipc
    requires step.ChildPut? ==> |s.links[step.w].child.held| <= 1
    requires !OfScheduler(step) || step.PollEnd?
    ensures |Next(bounds, scripts, s, step).links| == |s.links|
    ensures |Next(bounds, scripts, s, step).links[w].results| <= bounds.ipc
  {
    if OfChild(step) { ChildLinks(bounds, scripts, s, step, w); } else if !step.PollEnd? { LocalParts(bounds, scripts, s, step); }
  }

  lemma ChildLinks(bounds: Bounds, scripts: Scripts, s: System, step: Step, w: nat)
    requires Enabled(bounds, scripts, s, step) && w < |s.links| && |s.links[w].results| <= bounds.ipc && OfChild(step)
    requires step.ChildPut? ==> |s.links[step.w].child.held| <= 1
    ensures |Next(bounds, scripts, s, step).links| == |s.links|
    ensures |Next(bounds, scripts, s, step).links[w].results| <= bounds.ipc
  {
  }

  lemma QueuesWithin(bounds: Bounds, scripts: Scripts, s: System, step: Step, id: RequestId)
    requires |At(s.queues, id)| <= bounds.api && bounds.api > 0 && Enabled(bounds, scripts, s, step)
    ensures |At(Next(bounds, scripts, s, step).queues, id)| <= bounds.api
  {
    if step.Visit? {
      VisitQueues(s, s.pc.next, step.look, step.at, step.broken);
    } else if step.SubmitRequest? {
      SubmitQueues(s, step.request, step.now, step.broken, step.asStream, id);
    } else if OfChild(step) {
      ChildParts(bounds, scripts, s, step);
    } else if step.RouteLook? {
      LookParts(s, NextLook(s));
    } else if step.RouteCheck? {
      CheckParts(s, NextCheck(s));
    }
  }

  lemma VisitQueues(s: System, i: nat, look: Look, at: real, broken: set<nat>)
    requires AtWorker(s, i) && CanLook(s.links[i], look)
    ensures NextVisit(s, i, look, at, broken).queues == s.queues
  {
  }

  lemma SubmitQueues(s: System, request: Request, now: real, broken: set<nat>, asStream: bool, id: RequestId)
    ensures At(NextSubmit(s, request, now, broken, asStream).queues, id) == At(s.queues, id)
  {
  }

  lemma WithinKept(bounds: Bounds, scripts: Scripts, s: System, step: Step)
    requires Within(bounds, s) && bounds.api > 0 && Enabled(bounds, scripts, s, step) && s.links != []
    requires step.ChildPut? ==> |s.links[step.w].child.held| <= 1
    ensures Within(bounds, Next(bounds, scripts, s, step))
  {
    LinksWithin(bounds, scripts, s, step, 0);
    forall w: nat | w < |s.links| ensures |Next(bounds, scripts, s, step).links[w].results| <= bounds.ipc {
      LinksWithin(bounds, scripts, s, step, w);
    }
    forall id ensures |At(Next(bounds, scripts, s, step).queues, id)| <= bounds.api {
      QueuesWithin(bounds, scripts, s, step, id);
    }
  }

  /* ---- Events ---- */

  // The scheduler's own messages are not chunks.
  ghost predicate NoNewChunks(s: State, r: State) {
    && s.events <= r.events
    && (forall k :: |s.events| <= k < |r.events| ==> !r.events[k].kind.StreamChunk?)
  }

  lemma SameChunks(s: State, r: State, id: RequestId)
    requires NoNewChunks(s, r)
    ensures Chunks(id, r.events) == Chunks(id, s.events)
  {
    var more := r.events[|s.events|..];
    assert r.events == s.events + more;
    ChunksConcat(id, s.events, more);
    NoChunks(id, more);
  }

  lemma QuietAtMostOne(s: System, s': System)
    requires AtMostOne(s) && s'.hand == s.hand && NoNewChunks(s.sched, s'.sched)
    ensures AtMostOne(s')
  {
    forall id ensures Chunks(id, s'.hand) + Chunks(id, s'.sched.events) <= 1 { SameChunks(s.sched, s'.sched, id); }
  }

  lemma CollectAtMostOne(s: System)
    requires AtMostOne(s)
    ensures AtMostOne(Collected(s))
  {
    forall id ensures Chunks(id, s.hand + s.sched.events) + Chunks(id, []) <= 1 {
      ChunksConcat(id, s.hand, s.sched.events);
    }
  }

  lemma DroppedHeadAtMostOne(s: System, s': System)
    requires AtMostOne(s) && s.hand != [] && s'.hand == s.hand[1..] && s'.sched == s.sched
    ensures AtMostOne(s')
  {
    forall id ensures Chunks(id, s'.hand) + Chunks(id, s'.sched.events) <= 1 {
      assert Chunks(id, s.hand) >= Chunks(id, s.hand[1..]);
    }
  }

  lemma ExpireQuiet(s: State, now: real)
    ensures NoNewChunks(s, Expire(s, now))
  {
    ExpireProgress(s, now);
  }

  lemma PollBeginBuffers(bounds: Bounds, scripts: Scripts, s: System, now: real)
    requires BuffersOk(bounds, s) && s.pc.AtTop? && bounds.api > 0 && s.links != []
    ensures BuffersOk(bounds, Next(bounds, scripts, s, PollBegin(now)))
  {
    var r := Expire(s.sched, now);
    var s1 := s.(sched := r, links := Relink(s.links, s.sched.active, r.active), pc := Polling(0));
    ExpireQuiet(s.sched, now);
    QuietAtMostOne(s, s1);
    CollectAtMostOne(s1);
    WithinKept(bounds, scripts, s, PollBegin(now));
  }

  lemma PollEndBuffers(bounds: Bounds, scripts: Scripts, s: System)
    requires BuffersOk(bounds, s) && Enabled(bounds, scripts, s, PollEnd) && bounds.api > 0 && s.links != []
    ensures BuffersOk(bounds, Next(bounds, scripts, s, PollEnd))
  {
    var s1 := s.(sched := FailPendingWithoutHealthy(s.sched));
    FailPendingProgress(s.sched);
    QuietAtMostOne(s, s1);
    CollectAtMostOne(s1);
    WithinKept(bounds, scripts, s, PollEnd);
  }

  /* ---- Visits ---- */

  // What a visit of worker `i` adds to the events: the message it read, if any, and no other chunk.
  ghost predicate VisitAdds(s: State, i: nat, r: State)
    requires i in s.active
  {
    && s.events <= r.events
    && (forall k :: |s.events| < k < |r.events| ==> !r.events[k].kind.StreamChunk?)
    && (|s.events| < |r.events| && r.events[|s.events|].kind.StreamChunk? ==>
          r.events[|s.events|].requestId in {None, Some(s.active[i])})
  }

  lemma VisitChunks(s: State, i: nat, r: State, id: RequestId)
    requires i in s.active && VisitAdds(s, i, r)
    ensures Chunks(id, r.events) <= Chunks(id, s.events) + if id == s.active[i] then 1 else 0
  {
    if |s.events| < |r.events| {
      var m, more := r.events[|s.events|], r.events[|s.events| + 1..];
      assert r.events == (s.events + [m]) + more;
      ChunksConcat(id, s.events + [m], more);
      ChunksConcat(id, s.events, [m]);
      assert [m][1..] == [];
      NoChunks(id, more);
    } else {
      assert r.events == s.events;
    }
  }

  lemma NewsAdds(s: State, i: nat, m: Message, at: real, broken: set<nat>)
    requires i in s.active && i < |s.workers| && s.workers[i] == Worker(Busy, Some(s.active[i]))
    requires m.requestId in {None, Some(s.active[i])}
    ensures VisitAdds(s, i, PollWorker(s, i, Reply(Got(m), at, broken)).0)
  {
    PollReads(s, i, m, at, broken);
    if Terminal(m.kind) {
      var u := Finish(s, i, Worker(WorkerState.Ready, None), m);
      DispatchPendingProgress(u, at, broken);
    }
  }

  lemma NoNewsAdds(s: State, i: nat, read: Read, at: real, broken: set<nat>)
    requires i in s.active && i < |s.workers| && s.workers[i] == Worker(Busy, Some(s.active[i])) && !read.Got?
    ensures VisitAdds(s, i, PollWorker(s, i, Reply(read, at, broken)).0)
  {
    PollReadsNothing(s, i, read, at, broken);
  }

  // A worker runs after a visit what it ran before, or what was waiting.
  lemma VisitRuns(s: State, i: nat, read: Read, at: real, broken: set<nat>, w: nat)
    requires i in s.active && i < |s.workers| && s.workers[i] == Worker(Busy, Some(s.active[i]))
    requires read.Got? ==> read.message.requestId in {None, Some(s.active[i])}
    requires var r := PollWorker(s, i, Reply(read, at, broken)).0; w in r.active
    ensures var r := PollWorker(s, i, Reply(read, at, broken)).0;
      (w in s.active && r.active[w] == s.active[w]) || IsQueued(s, r.active[w])
  {
    if read.Got? {
      PollReads(s, i, read.message, at, broken);
      if Terminal(read.message.kind) {
        DispatchPendingProgress(Finish(s, i, Worker(WorkerState.Ready, None), read.message), at, broken);
      }
    } else {
      PollReadsNothing(s, i, read, at, broken);
    }
  }

  lemma QueuedHasNoChunks(s: System, id: RequestId)
    requires UntouchedOk(s) && IsQueued(s.sched, id)
    ensures Chunks(id, s.sched.events) == 0
  {
    assert Flow(s, id) == [];
    ChunksOfNone(id, s.sched.events);
  }

  lemma VisitBuffers(bounds: Bounds, scripts: Scripts, s: System, i: nat, look: Look, at: real, broken: set<nat>)
    requires SystemInv(scripts, s) && BuffersOk(bounds, s) && bounds.api > 0
    requires s.pc == Polling(i) && AtWorker(s, i) && CanLook(s.links[i], look)
    ensures AtMostOne(NextVisit(s, i, look, at, broken)) && NotYetVisited(NextVisit(s, i, look, at, broken))
  {
    if i in s.sched.active { ReadOfActive(scripts, s, i, look); }
    VisitFrom(s, i, look, at, broken);
  }

  // What a visit can read for the request of worker `i`.
  lemma ReadOfActive(scripts: Scripts, s: System, i: nat, look: Look)
    requires SystemInv(scripts, s) && AtWorker(s, i) && CanLook(s.links[i], look) && i in s.sched.active
    ensures MineOnly(s.sched, i, ReadOf(s.links[i], look))
  {
    BusyOfActive(s.sched, i);
    if look.TakeHead? { HeadOfActive(scripts, s, i); }
  }

  predicate MineOnly(s: State, i: nat, read: Read) {
    && i in s.active && i < |s.workers| && s.workers[i] == Worker(Busy, Some(s.active[i]))
    && (read.Got? ==> read.message.requestId in {None, Some(s.active[i])})
  }

  lemma VisitFrom(s: System, i: nat, look: Look, at: real, broken: set<nat>)
    requires AtMostOne(s) && NotYetVisited(s) && UntouchedOk(s) && Core(s.sched) && s.hand == []
    requires s.pc == Polling(i) && AtWorker(s, i) && CanLook(s.links[i], look)
    requires i in s.sched.active ==> MineOnly(s.sched, i, ReadOf(s.links[i], look))
    ensures AtMostOne(NextVisit(s, i, look, at, broken)) && NotYetVisited(NextVisit(s, i, look, at, broken))
  {
    var s' := VisitParts(s, i, look, at, broken);
    if i in s.sched.active {
      ActiveVisitBuffers(s, i, ReadOf(s.links[i], look), at, broken, s');
    } else {
      IdleVisitBuffers(s, i, s');
    }
  }

  lemma VisitParts(s: System, i: nat, look: Look, at: real, broken: set<nat>) returns (s': System)
    requires AtWorker(s, i) && CanLook(s.links[i], look)
    ensures s' == NextVisit(s, i, look, at, broken)
    ensures i !in s.sched.active ==> s' == s.(pc := Polling(i + 1))
    ensures i in s.sched.active ==>
      && s'.sched == PollWorker(s.sched, i, Reply(ReadOf(s.links[i], look), at, broken)).0
      && s'.hand == s.hand && (s'.pc.AtTop? || s'.pc == Polling(i + 1))
  {
    s' := NextVisit(s, i, look, at, broken);
  }

  lemma IdleVisitBuffers(s: System, i: nat, s': System)
    requires AtMostOne(s) && NotYetVisited(s) && s.pc == Polling(i) && s' == s.(pc := Polling(i + 1))
    requires i !in s.sched.active
    ensures AtMostOne(s') && NotYetVisited(s')
  {
  }

  lemma ActiveVisitBuffers(s: System, i: nat, read: Read, at: real, broken: set<nat>, s': System)
    requires AtMostOne(s) && NotYetVisited(s) && UntouchedOk(s) && Core(s.sched) && s.pc == Polling(i) && s.hand == []
    requires MineOnly(s.sched, i, read)
    requires s'.sched == PollWorker(s.sched, i, Reply(read, at, broken)).0 && s'.hand == []
    requires s'.pc.AtTop? || s'.pc == Polling(i + 1)
    ensures AtMostOne(s') && NotYetVisited(s')
  {
    if read.Got? {
      NewsAdds(s.sched, i, read.message, at, broken);
    } else {
      NoNewsAdds(s.sched, i, read, at, broken);
    }
    forall id ensures Chunks(id, s'.hand) + Chunks(id, s'.sched.events) <= 1 {
      VisitChunks(s.sched, i, s'.sched, id);
      assert Chunks(id, s.hand) == 0;
    }
    forall w: nat | w in s'.sched.active && i + 1 <= w ensures Chunks(s'.sched.active[w], s'.sched.events) == 0 {
      var id := s'.sched.active[w];
      VisitRuns(s.sched, i, read, at, broken, w);
      VisitChunks(s.sched, i, s'.sched, id);
      RunsOnce(s.sched, i, i);
      if IsQueued(s.sched, id) {
        QueuedHasNoChunks(s, id);
      } else if id == s.sched.active[i] {
        RunsOnce(s.sched, i, w);
      }
    }
  }

  /* ---- Every step ---- */

  lemma CancelQuiet(s: State, id: RequestId)
    ensures NoNewChunks(s, Cancel(s, id).0)
  {
    var i := HolderFrom(s, 0, id);
    if IndexOf(s.pending, id) == |s.pending| && i < |s.workers| {
      var (w, cancelled) := CancelActive(s.workers[i]);
      FailPendingProgress(Record(Release(s, i, w), Message(Cancelled, FromWorker(i), cancelled, StageActive, 0)));
    }
  }

  lemma CloseQuiet(s: State)
    ensures NoNewChunks(s, Close(s))
  {
    if !s.closed { CancelHeadsProgress(s.(closed := true)); }
  }

  // Admissions, cancellations and shutdown happen outside a poll.
  lemma OutsidePoll(s: System, s': System)
    requires EventsBounded(s) && LockFree(s) && s'.pc == s.pc && s'.hand == s.hand && NoNewChunks(s.sched, s'.sched)
    ensures EventsBounded(s')
  {
    QuietAtMostOne(s, s');
  }

  ghost predicate EventsBounded(s: System) {
    AtMostOne(s) && NotYetVisited(s)
  }

  lemma SchedulingBuffers(bounds: Bounds, scripts: Scripts, s: System, step: Step)
    requires EventsBounded(s) && Enabled(bounds, scripts, s, step)
    requires step.SubmitRequest? || step.CancelRequest? || step.CloseScheduler?
    ensures EventsBounded(Next(bounds, scripts, s, step))
  {
    if step.SubmitRequest? { SubmitBuffers(s, step.request, step.now, step.broken, step.asStream); }
    else if step.CancelRequest? { CancelBuffers(s, step.id); }
    else { CloseBuffers(s); }
  }

  lemma SubmitBuffers(s: System, request: Request, now: real, broken: set<nat>, asStream: bool)
    requires EventsBounded(s) && LockFree(s)
    ensures EventsBounded(NextSubmit(s, request, now, broken, asStream))
  {
    SubmitCases(s.sched, request, now, broken);
    OutsidePoll(s, NextSubmit(s, request, now, broken, asStream));
  }

  lemma CancelBuffers(s: System, id: RequestId)
    requires EventsBounded(s) && LockFree(s)
    ensures EventsBounded(NextCancel(s, id))
  {
    CancelQuiet(s.sched, id);
    OutsidePoll(s, NextCancel(s, id));
  }

  lemma CloseBuffers(s: System)
    requires EventsBounded(s) && LockFree(s)
    ensures EventsBounded(NextClose(s))
  {
    CloseQuiet(s.sched);
    OutsidePoll(s, NextClose(s));
  }

  lemma LocalBuffers(bounds: Bounds, scripts: Scripts, s: System, step: Step)
    requires EventsBounded(s) && Enabled(bounds, scripts, s, step) && !OfScheduler(step)
    ensures EventsBounded(Next(bounds, scripts, s, step))
  {
    LocalParts(bounds, scripts, s, step);
    LocalBounded(s, Next(bounds, scripts, s, step));
  }

  lemma LocalBounded(s: System, s': System)
    requires EventsBounded(s) && s'.sched == s.sched && (s'.pc == s.pc || (!s.pc.Polling? && !s'.pc.Polling?))
    requires s'.hand == s.hand || (s.hand != [] && s'.hand == s.hand[1..])
    ensures EventsBounded(s')
  {
    if s'.hand == s.hand { QuietAtMostOne(s, s'); } else { DroppedHeadAtMostOne(s, s'); }
  }

  lemma ActStep(bounds: Bounds, scripts: Scripts, s: System, step: Step)
    requires SystemInv(scripts, s) && BuffersOk(bounds, s) && bounds.api > 0 && Enabled(bounds, scripts, s, step)
    requires !step.PollBegin? && !step.PollEnd?
    ensures EventsBounded(Next(bounds, scripts, s, step))
  {
    if step.Visit? {
      VisitBuffers(bounds, scripts, s, s.pc.next, step.look, step.at, step.broken);
    } else if step.SubmitRequest? || step.CancelRequest? || step.CloseScheduler? {
      SchedulingBuffers(bounds, scripts, s, step);
    } else {
      LocalBuffers(bounds, scripts, s, step);
    }
  }

  lemma HeldOne(scripts: Scripts, s: System, w: nat)
    requires SystemInv(scripts, s) && w < |s.links| && s.links[w].child.Working?
    ensures |s.links[w].child.held| <= 1
  {
    assert LinkOk(s.sched.workers[w], s.links[w]);
  }

  lemma StepBuffers(bounds: Bounds, scripts: Scripts, s: System, step: Step)
    requires SystemInv(scripts, s) && BuffersOk(bounds, s) && bounds.api > 0 && s.links != []
    requires Enabled(bounds, scripts, s, step)
    ensures BuffersOk(bounds, Next(bounds, scripts, s, step))
  {
    if step.PollBegin? {
      PollBeginBuffers(bounds, scripts, s, step.now);
    } else if step.PollEnd? {
      PollEndBuffers(bounds, scripts, s);
    } else {
      if step.ChildPut? { HeldOne(scripts, s, step.w); }
      WithinKept(bounds, scripts, s, step);
      ActStep(bounds, scripts, s, step);
    }
  }

  lemma {:induction false} RunBuffers(bounds: Bounds, scripts: Scripts, s: System, steps: seq<Step>, r: System)
    requires SystemInv(scripts, s) && BuffersOk(bounds, s) && bounds.api > 0 && s.links != []
    requires IsRun(bounds, scripts, s, steps, r)
    ensures BuffersOk(bounds, r) && SystemInv(scripts, r)
    decreases |steps|
  {
    if steps != [] {
      StepKeepsInv(bounds, scripts, s, steps[0]);
      StepBuffers(bounds, scripts, s, steps[0]);
      LinksWithin(bounds, scripts, s, steps[0], 0);
      RunBuffers(bounds, scripts, Next(bounds, scripts, s, steps[0]), steps[1..], r);
    }
  }

  /** In every reachable state the chunks of a running stream that its child has produced and its consumer
      has not taken (held by the child, in the result queue, with the dispatcher, in the stream queue) are at
      most the two queue bounds and two more. */
  lemma BufferingIsBounded(bounds: Bounds, scripts: Scripts, s: System, w: nat)
    requires Reachable(bounds, scripts, s) && bounds.api > 0 && w in s.sched.active && w < |s.links|
    ensures var id := s.sched.active[w];
      var held := if s.links[w].child.Working? then s.links[w].child.held else [];
      Chunks(id, held) + Chunks(id, s.links[w].results) + Chunks(id, s.sched.events) + Chunks(id, s.hand)
      + Chunks(id, At(s.queues, id)) <= bounds.ipc + bounds.api + 2
  {
    var s0: System, steps: seq<Step> :| SystemInit(s0) && IsRun(bounds, scripts, s0, steps, s);
    InitIsOk(scripts, s0);
    RunBuffers(bounds, scripts, s0, steps, s);
    assert LinkOk(s.sched.workers[w], s.links[w]);
    var id := s.sched.active[w];
    ChunksAtMost(id, if s.links[w].child.Working? then s.links[w].child.held else []);
    ChunksAtMost(id, s.links[w].results);
    ChunksAtMost(id, At(s.queues, id));
  }

  /** And for every id, running or not, the parent (events, batch and stream queue together) holds at most one chunk
      more than the stream queue's bound. */
  lemma ParentBufferingIsBounded(bounds: Bounds, scripts: Scripts, s: System, id: RequestId)
    requires Reachable(bounds, scripts, s) && bounds.api > 0
    ensures Chunks(id, s.sched.events) + Chunks(id, s.hand) + Chunks(id, At(s.queues, id)) <= bounds.api + 1
  {
    var s0: System, steps: seq<Step> :| SystemInit(s0) && IsRun(bounds, scripts, s0, steps, s);
    InitIsOk(scripts, s0);
    RunBuffers(bounds, scripts, s0, steps, s);
    ChunksAtMost(id, At(s.queues, id));
  }
}
