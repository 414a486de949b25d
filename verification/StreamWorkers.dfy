/** The steps between a worker's child and the parent, and admission, keep the invariant of the request path. */
module StreamWorkers {
  import opened Messages
  import opened WorkerModel
  import opened SchedulerSpec
  import opened SchedulerInvariants
  import opened StreamSystem
  import opened StreamInvariant
  import opened StreamScheduling

  /* ---- The child ---- */

  // What a step of its child may do to a link: keep it in order and keep what is upstream.
  ghost predicate LinkStep(scripts: Scripts, worker: Worker, before: Link, link: Link) {
    && LinkOk(worker, link)
    && (worker.state.Busy? && worker.activeId.Some? ==>
          Wire(scripts, link, worker.activeId.value) == Wire(scripts, before, worker.activeId.value))
  }

  lemma LinkStepRunning(scripts: Scripts, s: System, w: nat, link: Link)
    requires Shape(s.sched) && RunningOk(scripts, s) && w < |s.links| == |s.sched.workers|
    requires LinkStep(scripts, s.sched.workers[w], s.links[w], link)
    ensures RunningOk(scripts, SetLink(s, w, link))
  {
    var s' := SetLink(s, w, link);
    forall v: nat | v in s'.sched.active && v < |s'.links| ensures RunOkAt(scripts, s', v) {
      assert RunOkAt(scripts, s, v);
      assert Flow(s', s.sched.active[v]) == Flow(s, s.sched.active[v]);
      if v == w { assert s.sched.workers[w].activeId == Some(s.sched.active[w]); }
    }
  }

  lemma LinkStepKeeps(scripts: Scripts, s: System, w: nat, link: Link)
    requires SystemInv(scripts, s) && w < |s.links|
    requires LinkStep(scripts, s.sched.workers[w], s.links[w], link)
    ensures SystemInv(scripts, SetLink(s, w, link))
  {
    var s' := SetLink(s, w, link);
    LinkStepRunning(scripts, s, w, link);
    assert EndedOk(scripts, s') by {
      forall id | Ended(s'.sched, id) && id !in s'.lost ensures Faithful(Flow(s', id), scripts(id)) {
        assert Ended(s.sched, id) && Flow(s', id) == Flow(s, id);
      }
    }
    assert UntouchedOk(s') by {
      forall id | id !in s'.sched.submitted || IsQueued(s'.sched, id) ensures Flow(s', id) == [] && id !in s'.lost {
        assert Flow(s', id) == Flow(s, id);
      }
    }
  }

  // What is known of worker `w` and its link.
  ghost predicate Known(scripts: Scripts, worker: Worker, link: Link) {
    && LinkOk(worker, link)
    && (worker.state.Busy? ==>
          && worker.activeId.Some?
          && (ScriptOk(scripts(worker.activeId.value), worker.activeId.value, true)
              || ScriptOk(scripts(worker.activeId.value), worker.activeId.value, false))
          && var wire := Wire(scripts, link, worker.activeId.value);
             wire != [] && Suffix(wire, scripts(worker.activeId.value)))
  }

  lemma KnowWorker(scripts: Scripts, s: System, w: nat)
    requires SystemInv(scripts, s) && w < |s.links|
    ensures Known(scripts, s.sched.workers[w], s.links[w])
  {
    assert LinkOk(s.sched.workers[w], s.links[w]);
    if s.sched.workers[w].state.Busy? {
      assert w in s.sched.active;
      RunningIsSubmitted(s.sched, w);
      assert RunOkAt(scripts, s, w);
    }
  }

  lemma TakeCommand(scripts: Scripts, worker: Worker, before: Link)
    requires Known(scripts, worker, before)
    requires before.alive && before.child.Waiting? && before.control != []
    ensures LinkStep(scripts, worker, before, TakenCommand(scripts, before))
  {
  }

  lemma YieldMessage(scripts: Scripts, worker: Worker, before: Link)
    requires Known(scripts, worker, before)
    requires before.alive && before.child.Working? && before.child.held == [] && before.child.todo != []
    ensures LinkStep(scripts, worker, before, Yielded(before))
  {
    assert Yielded(before).child.held + Yielded(before).child.todo == before.child.held + before.child.todo;
  }

  // What a child holds belongs to the request it works on.
  lemma HeldIsMine(scripts: Scripts, link: Link, id: RequestId)
    requires link.control == [] && link.child.Working? && link.child.id == id && link.child.held != []
    requires ScriptOk(scripts(id), id, true) || ScriptOk(scripts(id), id, false)
    requires Suffix(Wire(scripts, link, id), scripts(id))
    ensures link.child.held[0].requestId == Some(id)
  {
    var wire := Wire(scripts, link, id);
    var k := |For(id, link.results)|;
    assert wire[k] == link.child.held[0];
    assert wire[k] == scripts(id)[|scripts(id)| - |wire| + k];
  }

  lemma PutKeepsLink(before: Link, id: RequestId)
    requires AnonymousLast(before) && BusyLink(before, id) && before.alive
    requires before.child.Working? && |before.child.held| == 1 && before.child.held[0].requestId == Some(id)
    ensures AnonymousLast(PutLink(before)) && BusyLink(PutLink(before), id)
  {
  }

  lemma PutKeepsWire(scripts: Scripts, before: Link, id: RequestId)
    requires before.control == [] && before.child.Working? && before.child.id == id
    requires |before.child.held| == 1 && before.child.held[0].requestId == Some(id)
    ensures Wire(scripts, PutLink(before), id) == Wire(scripts, before, id)
  {
    var held, todo := before.child.held, before.child.todo;
    assert held == [held[0]];
    ForAppend(id, before.results, held[0]);
    assert Rest(scripts, PutLink(before), id) == todo;
    Regroup(For(id, before.results), held, todo);
  }

  lemma Regroup(a: seq<Message>, b: seq<Message>, c: seq<Message>)
    ensures a + (b + c) == (a + b) + c
  {
  }

  lemma PutMessage(scripts: Scripts, worker: Worker, before: Link)
    requires Known(scripts, worker, before)
    requires before.alive && before.child.Working? && before.child.held != []
    ensures LinkStep(scripts, worker, before, PutLink(before))
  {
    if worker.state.Busy? {
      var id := worker.activeId.value;
      HeldIsMine(scripts, before, id);
      PutKeepsLink(before, id);
      PutKeepsWire(scripts, before, id);
    }
  }

  lemma Panic(scripts: Scripts, worker: Worker, before: Link, w: nat)
    requires Known(scripts, worker, before) && before.alive
    ensures LinkStep(scripts, worker, before, Panicked(before, w))
  {
    PanicLinkOk(worker, before, w);
    if worker.state.Busy? { PanicKeepsWire(scripts, before, worker.activeId.value, w); }
  }

  lemma PanicLinkOk(worker: Worker, before: Link, w: nat)
    requires LinkOk(worker, before) && before.alive
    ensures LinkOk(worker, Panicked(before, w))
  {
  }

  lemma PanicKeepsWire(scripts: Scripts, before: Link, id: RequestId, w: nat)
    ensures Wire(scripts, Panicked(before, w), id) == Wire(scripts, before, id)
  {
    ForAppend(id, before.results, Anonymous(w));
  }

  lemma Die(scripts: Scripts, worker: Worker, before: Link)
    requires Known(scripts, worker, before)
    ensures LinkStep(scripts, worker, before, before.(alive := false))
  {
  }

  lemma ChildStepKeeps(bounds: Bounds, scripts: Scripts, s: System, step: Step)
    requires SystemInv(scripts, s) && Enabled(bounds, scripts, s, step)
    requires step.ChildTake? || step.ChildYield? || step.ChildPut? || step.ChildDie? || step.ChildPanic?
    ensures SystemInv(scripts, Next(bounds, scripts, s, step))
  {
    var w := step.w;
    KnowWorker(scripts, s, w);
    var worker, before := s.sched.workers[w], s.links[w];
    if step.ChildTake? {
      TakeCommand(scripts, worker, before);
      LinkStepKeeps(scripts, s, w, TakenCommand(scripts, before));
    } else if step.ChildYield? {
      YieldMessage(scripts, worker, before);
      LinkStepKeeps(scripts, s, w, Yielded(before));
    } else if step.ChildPut? {
      PutMessage(scripts, worker, before);
      LinkStepKeeps(scripts, s, w, PutLink(before));
    } else if step.ChildDie? {
      Die(scripts, worker, before);
      LinkStepKeeps(scripts, s, w, before.(alive := false));
    } else {
      Panic(scripts, worker, before, w);
      LinkStepKeeps(scripts, s, w, Panicked(before, w));
    }
  }

  /* ---- Admission ---- */

  // `s'` is `s` after `id` went straight to ready worker `i`.
  ghost predicate Sent(scripts: Scripts, s: System, i: nat, id: RequestId, now: real, s': System) {
    && |s.links| == |s.sched.workers| && i < |s.links| && s.sched.workers[i].state.Ready? && id !in s.sched.submitted
    && s'.sched == Assign(Admit(s.sched, id), i, id, now)
    && s'.links == s.links[i := s.links[i].(control := s.links[i].control + [id])]
    && Placed(scripts, s, id, s')
  }

  // `s'` is `s` after `id` joined the queue.
  ghost predicate Joined(scripts: Scripts, s: System, request: Request, now: real, s': System) {
    && s'.sched == Admit(s.sched, request.id).(pending := s.sched.pending + [Pending(request, now)], log := s'.sched.log)
    && s'.links == s.links && request.id !in s.sched.submitted
    && Placed(scripts, s, request.id, s')
  }

  // The runtime's part of an admission.
  ghost predicate Placed(scripts: Scripts, s: System, id: RequestId, s': System) {
    && s' == s.(sched := s'.sched, links := s'.links, streams := s'.streams, futures := s'.futures, queues := s'.queues)
    && s'.sched.events == s.sched.events && LockFree(s)
    && (forall x :: At(s'.queues, x) == At(s.queues, x))
    && (ScriptOk(scripts(id), id, true) || ScriptOk(scripts(id), id, false))
    && (s'.streams == s.streams || (s'.streams == s.streams + {id} && ScriptOk(scripts(id), id, true)))
  }

  lemma PlacedFlow(scripts: Scripts, s: System, id: RequestId, s': System, x: RequestId)
    requires Placed(scripts, s, id, s')
    ensures Flow(s', x) == Flow(s, x)
  {
  }

  lemma SentRunning(scripts: Scripts, s: System, i: nat, id: RequestId, now: real, s': System)
    requires Sent(scripts, s, i, id, now, s') && Shape(s.sched) && LinksOk(s) && UntouchedOk(s) && RunningOk(scripts, s)
    ensures RunningOk(scripts, s')
  {
    forall w: nat | w in s'.sched.active && w < |s'.links| ensures RunOkAt(scripts, s', w) {
      PlacedFlow(scripts, s, id, s', s'.sched.active[w]);
      if w == i {
        FreshWire(scripts, s, i, id);
        assert scripts(id)[0..] == scripts(id);
      } else {
        assert RunOkAt(scripts, s, w);
      }
    }
  }

  lemma SentLinks(scripts: Scripts, s: System, i: nat, id: RequestId, now: real, s': System)
    requires Sent(scripts, s, i, id, now, s') && LinksOk(s)
    ensures LinksOk(s')
  {
    forall w | 0 <= w < |s'.links| ensures LinkOk(s'.sched.workers[w], s'.links[w]) {
      assert LinkOk(s.sched.workers[w], s.links[w]);
    }
  }

  // A running request still runs after another was sent to a ready worker.
  lemma StillRunning(s: State, i: nat, id: RequestId, now: real, x: RequestId)
    requires Shape(s) && i < |s.workers| && s.workers[i].state.Ready? && IsRunning(s, x)
    ensures IsRunning(Assign(Admit(s, id), i, id, now), x)
  {
    var w: nat :| w in s.active && s.active[w] == x;
    var r := Assign(Admit(s, id), i, id, now);
    assert w in r.active && r.active[w] == x;
  }

  lemma SentEnded(scripts: Scripts, s: System, i: nat, id: RequestId, now: real, s': System)
    requires Sent(scripts, s, i, id, now, s') && Shape(s.sched) && EndedOk(scripts, s)
    ensures EndedOk(scripts, s')
  {
    assert i in s'.sched.active && s'.sched.active[i] == id;
    forall x | Ended(s'.sched, x) && x !in s'.lost ensures Faithful(Flow(s', x), scripts(x)) {
      PlacedFlow(scripts, s, id, s', x);
      if IsRunning(s.sched, x) { StillRunning(s.sched, i, id, now, x); }
      assert x != id;
      assert Ended(s.sched, x);
    }
  }

  lemma PlacedUntouched(scripts: Scripts, s: System, id: RequestId, s': System)
    requires Placed(scripts, s, id, s') && UntouchedOk(s) && id !in s.sched.submitted
    requires s'.sched.submitted == s.sched.submitted + {id}
    requires forall x :: IsQueued(s'.sched, x) ==> IsQueued(s.sched, x) || x == id
    ensures UntouchedOk(s')
  {
    forall x | x !in s'.sched.submitted || IsQueued(s'.sched, x) ensures Flow(s', x) == [] && x !in s'.lost {
      PlacedFlow(scripts, s, id, s', x);
      assert x !in s.sched.submitted || IsQueued(s.sched, x);
    }
  }

  lemma SentKeeps(scripts: Scripts, s: System, i: nat, id: RequestId, now: real, s': System)
    requires SystemInv(scripts, s) && Sent(scripts, s, i, id, now, s')
    ensures SystemInv(scripts, s')
  {
    AssignKeeps(s.sched, i, id, now);
    SentRunning(scripts, s, i, id, now, s');
    SentLinks(scripts, s, i, id, now, s');
    SentEnded(scripts, s, i, id, now, s');
    PlacedUntouched(scripts, s, id, s');
    PlacedRest(scripts, s, id, s');
  }

  lemma PlacedRest(scripts: Scripts, s: System, id: RequestId, s': System)
    requires Placed(scripts, s, id, s') && Scripted(scripts, s) && LostOk(s) && UntouchedOk(s) && id !in s.sched.submitted
    requires s'.sched.submitted == s.sched.submitted + {id}
    ensures Scripted(scripts, s') && LostOk(s')
  {
  }

  lemma JoinedQueue(s: State, r: State, request: Request, now: real, x: RequestId)
    requires r.pending == s.pending + [Pending(request, now)]
    ensures InQueue(r.pending, x) == InQueue(s.pending, x) + One(Some(request.id), x)
  {
    InQueueConcat(s.pending, [Pending(request, now)], x);
    assert [Pending(request, now)][1..] == [];
  }

  lemma JoinedEnded(scripts: Scripts, s: System, request: Request, now: real, s': System)
    requires Joined(scripts, s, request, now, s') && EndedOk(scripts, s)
    ensures EndedOk(scripts, s')
  {
    forall x | Ended(s'.sched, x) && x !in s'.lost ensures Faithful(Flow(s', x), scripts(x)) {
      PlacedFlow(scripts, s, request.id, s', x);
      JoinedQueue(s.sched, s'.sched, request, now, x);
      assert IsRunning(s.sched, x) ==> IsRunning(s'.sched, x);
      assert Ended(s.sched, x);
    }
  }

  lemma JoinedRunning(scripts: Scripts, s: System, request: Request, now: real, s': System)
    requires Joined(scripts, s, request, now, s') && RunningOk(scripts, s)
    ensures RunningOk(scripts, s')
  {
    forall w: nat | w in s'.sched.active && w < |s'.links| ensures RunOkAt(scripts, s', w) {
      PlacedFlow(scripts, s, request.id, s', s'.sched.active[w]);
      assert RunOkAt(scripts, s, w);
    }
  }

  lemma JoinedKeeps(scripts: Scripts, s: System, request: Request, now: real, s': System)
    requires SystemInv(scripts, s) && Joined(scripts, s, request, now, s') && Core(s'.sched)
    ensures SystemInv(scripts, s')
  {
    forall x ensures IsQueued(s'.sched, x) ==> IsQueued(s.sched, x) || x == request.id {
      JoinedQueue(s.sched, s'.sched, request, now, x);
    }
    JoinedRunning(scripts, s, request, now, s');
    JoinedEnded(scripts, s, request, now, s');
    PlacedUntouched(scripts, s, request.id, s');
    PlacedRest(scripts, s, request.id, s');
  }

  lemma SentRelink(links: seq<Link>, active: map<nat, RequestId>, i: nat, id: RequestId)
    requires i < |links| && i !in active
    ensures Relink(links, active, active[i := id]) == links[i := links[i].(control := links[i].control + [id])]
  {
  }

  lemma SubmitStepKeeps(scripts: Scripts, s: System, request: Request, now: real, broken: set<nat>, asStream: bool)
    requires SystemInv(scripts, s) && LockFree(s) && (asStream ==> request.stream)
    requires ScriptOk(scripts(request.id), request.id, request.stream)
    ensures SystemInv(scripts, NextSubmit(s, request, now, broken, asStream))
  {
    var outcome := Submit(s.sched, request, now, broken).1;
    SubmitCases(s.sched, request, now, broken);
    if outcome.Dispatched? {
      DispatchedKeeps(scripts, s, request, now, broken, asStream);
    } else if outcome.Queued? {
      QueuedKeeps(scripts, s, request, now, broken, asStream);
    } else if Submit(s.sched, request, now, broken).0 != s.sched {
      BrokenSendKeeps(scripts, s, FirstReady(s.sched.workers));
    }
  }

  lemma DispatchedKeeps(scripts: Scripts, s: System, request: Request, now: real, broken: set<nat>, asStream: bool)
    requires SystemInv(scripts, s) && LockFree(s) && (asStream ==> request.stream)
    requires ScriptOk(scripts(request.id), request.id, request.stream)
    requires Submit(s.sched, request, now, broken).1.Dispatched?
    ensures SystemInv(scripts, NextSubmit(s, request, now, broken, asStream))
  {
    var i := FirstReady(s.sched.workers);
    DispatchedIsSent(scripts, s, request, now, broken, asStream, i);
    SentKeeps(scripts, s, i, request.id, now, NextSubmit(s, request, now, broken, asStream));
  }

  lemma DispatchedIsSent(scripts: Scripts, s: System, request: Request, now: real, broken: set<nat>, asStream: bool, i: nat)
    requires Shape(s.sched) && |s.links| == |s.sched.workers| && LockFree(s) && (asStream ==> request.stream)
    requires ScriptOk(scripts(request.id), request.id, request.stream)
    requires Submit(s.sched, request, now, broken).1.Dispatched? && i == FirstReady(s.sched.workers)
    ensures Sent(scripts, s, i, request.id, now, NextSubmit(s, request, now, broken, asStream))
  {
    SubmitCases(s.sched, request, now, broken);
    SentRelink(s.links, s.sched.active, i, request.id);
  }

  lemma QueuedIsJoined(scripts: Scripts, s: System, request: Request, now: real, broken: set<nat>, asStream: bool)
    requires LockFree(s) && (asStream ==> request.stream) && ScriptOk(scripts(request.id), request.id, request.stream)
    requires Submit(s.sched, request, now, broken).1.Queued?
    ensures Joined(scripts, s, request, now, NextSubmit(s, request, now, broken, asStream))
  {
    SubmitCases(s.sched, request, now, broken);
    NoRelink(s.links, s.sched.active);
  }

  lemma QueuedKeeps(scripts: Scripts, s: System, request: Request, now: real, broken: set<nat>, asStream: bool)
    requires SystemInv(scripts, s) && LockFree(s) && (asStream ==> request.stream)
    requires ScriptOk(scripts(request.id), request.id, request.stream)
    requires Submit(s.sched, request, now, broken).1.Queued?
    ensures SystemInv(scripts, NextSubmit(s, request, now, broken, asStream))
  {
    QueuedIsJoined(scripts, s, request, now, broken, asStream);
    SubmitCases(s.sched, request, now, broken);
    EnqueueKeeps(s.sched, request, now, Submit(s.sched, request, now, broken).0);
    JoinedKeeps(scripts, s, request, now, NextSubmit(s, request, now, broken, asStream));
  }

  lemma BrokenSendKeeps(scripts: Scripts, s: System, i: nat)
    requires SystemInv(scripts, s) && i < |s.links| && s.sched.workers[i].state.Ready?
    ensures SystemInv(scripts, s.(sched := Break(s.sched, i)))
  {
    BreakKeeps(s.sched, i);
    QuietMoves(s.sched, Break(s.sched, i));
    MovedKeeps(scripts, s, s.(sched := Break(s.sched, i)));
  }
}
