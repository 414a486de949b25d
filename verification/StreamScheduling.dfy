/** The steps that move the scheduler or a child keep the invariant of the request path. */
module StreamScheduling {
  import opened Messages
  import opened WorkerModel
  import opened SchedulerSpec
  import opened SchedulerInvariants
  import opened SchedulerProgress
  import opened StreamSystem
  import opened StreamInvariant

  /* ---- Internal work of the scheduler ---- */

  // `s'` is `s` after its scheduler went to `r` by internal moves.
  ghost predicate Moved(s: System, s': System) {
    && s' == s.(sched := s'.sched, links := s'.links, futures := s'.futures, streams := s'.streams, pc := s'.pc)
    && |s'.links| == |s.links| == |s.sched.workers| == |s'.sched.workers|
    && (forall w :: 0 <= w < |s.links| ==>
          || s'.links[w] == RelinkOne(s.links[w], w, s.sched.active, s'.sched.active)
          || (s'.links[w] == s.links[w] && s'.sched.workers[w].state.Failed?))
    && Moves(s.sched, s'.sched) && Core(s'.sched)
    && s'.streams <= s.streams
  }

  lemma MovedFlow(s: System, s': System, id: RequestId)
    requires Moved(s, s')
    ensures Flow(s', id) == Flow(s, id) + For(id, s'.sched.events[|s.sched.events|..])
  {
    var before := At(s.consumed, id) + At(s.queues, id) + For(id, s.hand);
    EventsFlow(before, s.sched.events, s'.sched.events, id);
  }

  lemma EventsFlow(before: seq<Message>, were: seq<Message>, now: seq<Message>, id: RequestId)
    requires were <= now
    ensures before + For(id, now) == before + For(id, were) + For(id, now[|were|..])
  {
    assert now == were + now[|were|..];
    ForConcat(id, were, now[|were|..]);
  }

  lemma MovedUntouched(scripts: Scripts, s: System, s': System)
    requires SystemInv(scripts, s) && Moved(s, s')
    ensures UntouchedOk(s')
  {
    forall id | id !in s'.sched.submitted || IsQueued(s'.sched, id) ensures Flow(s', id) == [] && id !in s'.lost {
      MovedFlow(s, s', id);
      assert EventsOk(s.sched, s'.sched, id);
      if Ended(s'.sched, id) { assert false; }
    }
  }

  // A newly assigned request starts with its whole script upstream.
  lemma FreshWire(scripts: Scripts, s: System, w: nat, id: RequestId)
    requires w < |s.links| && w < |s.sched.workers| && s.sched.workers[w].state.Ready? && LinksOk(s)
    ensures Wire(scripts, s.links[w].(control := s.links[w].control + [id]), id) == scripts(id)
  {
    assert LinkOk(s.sched.workers[w], s.links[w]);
    ForNone(id, s.links[w].results);
  }

  lemma MovedRunningAt(scripts: Scripts, s: System, s': System, w: nat)
    requires Moved(s, s') && Core(s.sched) && LinksOk(s) && UntouchedOk(s) 
    requires w in s'.sched.active && w < |s.links|
    requires w in s.sched.active ==> RunOkAt(scripts, s, w)
    requires scripts(s'.sched.active[w]) != []
    ensures RunOkAt(scripts, s', w)
  {
    var id := s'.sched.active[w];
    RunningFlow(s, s', w);
    assert WorkerMoves(s.sched, s'.sched, w);
    if w !in s.sched.active {
      FreshWire(scripts, s, w, id);
      assert scripts(id)[0..] == scripts(id);
    }
  }

  lemma RunningFlow(s: System, s': System, w: nat)
    requires Moved(s, s') && w in s'.sched.active
    ensures Flow(s', s'.sched.active[w]) == Flow(s, s'.sched.active[w])
  {
    var id := s'.sched.active[w];
    MovedFlow(s, s', id);
    assert IsRunning(s'.sched, id);
    assert EventsOk(s.sched, s'.sched, id);
  }

  lemma MovedEndedOne(scripts: Scripts, s: System, s': System, id: RequestId)
    requires Moved(s, s') && UntouchedOk(s) && Core(s.sched)
    requires RunningOk(scripts, s) && EndedOk(scripts, s)
    requires Ended(s'.sched, id) && id !in s'.lost && scripts(id) != []
    ensures Faithful(Flow(s', id), scripts(id))
  {
    MovedFlow(s, s', id);
    assert EventsOk(s.sched, s'.sched, id);
    var more := For(id, s'.sched.events[|s.sched.events|..]);
    var flow := Flow(s, id);
    if !Ended(s.sched, id) {
      assert flow < scripts(id) by {
        if IsRunning(s.sched, id) {
          var w: nat :| w in s.sched.active && s.sched.active[w] == id;
          assert RunOkAt(scripts, s, w);
        }
      }
      if more != [] { assert (flow + more)[..|flow|] == flow; }
    }
  }

  lemma MovedLinkAt(s: State, r: State, w: nat, link: Link)
    requires Shape(s) && Shape(r) && w < |s.workers| == |r.workers| && WorkerMoves(s, r, w)
    requires LinkOk(s.workers[w], link)
    ensures LinkOk(r.workers[w], RelinkOne(link, w, s.active, r.active))
  {
    if w in r.active {
      assert r.workers[w].activeId == Some(r.active[w]);
      if w in s.active { assert s.workers[w].activeId == Some(s.active[w]); }
    }
  }

  lemma MovedKeeps(scripts: Scripts, s: System, s': System)
    requires SystemInv(scripts, s) && Moved(s, s') && Control(s')
    ensures SystemInv(scripts, s')
  {
    MovedUntouched(scripts, s, s');
    assert RunningOk(scripts, s') by {
      forall w: nat | w in s'.sched.active && w < |s'.links| ensures RunOkAt(scripts, s', w) {
        RunningIsSubmitted(s'.sched, w);
        MovedRunningAt(scripts, s, s', w);
      }
    }
    assert EndedOk(scripts, s') by {
      forall id | Ended(s'.sched, id) && id !in s'.lost ensures Faithful(Flow(s', id), scripts(id)) {
        MovedEndedOne(scripts, s, s', id);
      }
    }
    assert LinksOk(s') by {
      forall w | 0 <= w < |s'.links| ensures LinkOk(s'.sched.workers[w], s'.links[w]) {
        assert LinkOk(s.sched.workers[w], s.links[w]) && WorkerMoves(s.sched, s'.sched, w);
        MovedLinkAt(s.sched, s'.sched, w, s.links[w]);
      }
    }
  }

  lemma RunningIsSubmitted(s: State, w: nat)
    requires Core(s) && w in s.active
    ensures s.active[w] in s.submitted
  {
    RunsOnce(s, w, w);
  }

  lemma NoRelink(links: seq<Link>, active: map<nat, RequestId>)
    ensures Relink(links, active, active) == links
  {
  }

  /* ---- Poll boundaries ---- */

  // The drained events become the dispatcher's batch.
  function Collected(s: System): System {
    s.(sched := Drain(s.sched), hand := s.hand + s.sched.events, pc := Looking)
  }

  lemma CollectFlow(s: System, id: RequestId)
    ensures Flow(Collected(s), id) == Flow(s, id)
  {
    ForConcat(id, s.hand, s.sched.events);
  }

  lemma CollectPlaces(s: System, id: RequestId)
    ensures IsQueued(Collected(s).sched, id) <==> IsQueued(s.sched, id)
    ensures IsRunning(Collected(s).sched, id) <==> IsRunning(s.sched, id)
    ensures Accounted(Collected(s).sched, id) == Accounted(s.sched, id)
  {
  }

  lemma CollectKeeps(scripts: Scripts, s: System)
    requires SystemInv(scripts, s) && !s.pc.Putting?
    ensures SystemInv(scripts, Collected(s))
  {
    var s' := Collected(s);
    assert Core(s'.sched) by { forall id { CollectPlaces(s, id); } }
    assert RunningOk(scripts, s') by {
      forall w: nat | w in s'.sched.active && w < |s'.links| ensures RunOkAt(scripts, s', w) {
        assert RunOkAt(scripts, s, w);
        CollectFlow(s, s.sched.active[w]);
      }
    }
    assert EndedOk(scripts, s') by {
      forall id | Ended(s'.sched, id) && id !in s'.lost ensures Faithful(Flow(s', id), scripts(id)) {
        CollectPlaces(s, id);
        CollectFlow(s, id);
      }
    }
    assert UntouchedOk(s') by {
      forall id | id !in s'.sched.submitted || IsQueued(s'.sched, id) ensures Flow(s', id) == [] && id !in s'.lost {
        CollectPlaces(s, id);
        CollectFlow(s, id);
      }
    }
  }

  lemma PollBeginKeeps(bounds: Bounds, scripts: Scripts, s: System, now: real)
    requires SystemInv(scripts, s) && Enabled(bounds, scripts, s, PollBegin(now))
    ensures SystemInv(scripts, Next(bounds, scripts, s, PollBegin(now)))
  {
    var r := Expire(s.sched, now);
    ExpireKeeps(s.sched, now);
    ExpireProgress(s.sched, now);
    ProgressMoves(s.sched, r);
    var s1 := s.(sched := r, links := Relink(s.links, s.sched.active, r.active), pc := Polling(0));
    MovedKeeps(scripts, s, s1);
    if r.events != [] { CollectKeeps(scripts, s1); }
  }

  lemma PollEndKeeps(bounds: Bounds, scripts: Scripts, s: System)
    requires SystemInv(scripts, s) && Enabled(bounds, scripts, s, PollEnd)
    ensures SystemInv(scripts, Next(bounds, scripts, s, PollEnd))
  {
    var r := FailPendingWithoutHealthy(s.sched);
    FailPendingKeeps(s.sched);
    FailPendingProgress(s.sched);
    ProgressMoves(s.sched, r);
    NoRelink(s.links, s.sched.active);
    var s1 := s.(sched := r);
    MovedKeeps(scripts, s, s1);
    CollectKeeps(scripts, s1);
  }

  /* ---- Cancellation and shutdown ---- */

  // Reporting without an event, or taking running requests away, moves nothing forward.
  lemma QuietMoves(s: State, r: State)
    requires r.submitted == s.submitted && |r.workers| == |s.workers| && r.events == s.events
    requires forall id :: IsQueued(r, id) ==> IsQueued(s, id)
    requires forall w: nat :: w in r.active ==> w in s.active && s.active[w] == r.active[w]
    requires forall w :: 0 <= w < |s.workers| && r.workers[w].state.Ready? ==> s.workers[w].state.Ready?
    ensures Moves(s, r)
  {
    assert r.events[|s.events|..] == [];
    forall id ensures EventsOk(s, r, id) {}
  }

  lemma CancelPendingMoves(s: State, id: RequestId)
    requires IndexOf(s.pending, id) < |s.pending|
    ensures Moves(s, Cancel(s, id).0)
  {
    var k := IndexOf(s.pending, id);
    var r := Cancel(s, id).0;
    forall x | IsQueued(r, x) ensures IsQueued(s, x) { CutOne(s.pending, k, x); }
    QuietMoves(s, r);
  }

  lemma CancelActiveMoves(s: State, id: RequestId)
    requires Core(s) && IndexOf(s.pending, id) == |s.pending|
    ensures Moves(s, Cancel(s, id).0)
  {
    var i := HolderFrom(s, 0, id);
    if i == |s.workers| {
      QuietMoves(s, s);
    } else {
      var (w, cancelled) := CancelActive(s.workers[i]);
      TakenMoves(s, i, w, Message(Cancelled, FromWorker(i), cancelled, StageActive, 0));
    }
  }

  // A running request is taken away and reported to its caller, and the queue may fail.
  lemma TakenMoves(s: State, i: nat, w: Worker, m: Message)
    requires Core(s) && i in s.active && w.state.Stopped? && m.kind.Cancelled? && m.requestId == Some(s.active[i])
    ensures i < |s.workers| && Moves(s, FailPendingWithoutHealthy(Record(Release(s, i, w), m)))
  {
    var t := Record(Release(s, i, w), m);
    ReportActiveKeeps(s, i, w, m);
    QuietMoves(s, t);
    FailPendingKeeps(t);
    FailPendingProgress(t);
    ProgressMoves(t, FailPendingWithoutHealthy(t));
    MovesTrans(s, t, FailPendingWithoutHealthy(t));
  }

  lemma CancelStepKeeps(bounds: Bounds, scripts: Scripts, s: System, id: RequestId)
    requires SystemInv(scripts, s) && Enabled(bounds, scripts, s, CancelRequest(id))
    ensures SystemInv(scripts, Next(bounds, scripts, s, CancelRequest(id)))
  {
    var r := Cancel(s.sched, id).0;
    var s' := Next(bounds, scripts, s, CancelRequest(id));
    CancelCore(s.sched, id);
    if IndexOf(s.sched.pending, id) < |s.sched.pending| {
      CancelPendingMoves(s.sched, id);
    } else {
      CancelActiveMoves(s.sched, id);
    }
    if s' != s { MovedKeeps(scripts, s, s'); }
  }

  lemma {:induction false} CloseWorkersMoves(s: State, i: nat)
    requires Core(s) && i <= |s.workers|
    ensures Moves(s, CloseWorkersFrom(s, i)) && Core(CloseWorkersFrom(s, i))
    decreases |s.workers| - i
  {
    if i == |s.workers| {
      QuietMoves(s, s);
    } else {
      var t := CloseWorker(s, i);
      CloseWorkerKeeps(s, i);
      QuietMoves(s, t);
      CloseWorkersMoves(t, i + 1);
      MovesTrans(s, t, CloseWorkersFrom(s, i));
    }
  }

  lemma CloseMoves(s: State)
    requires Core(s) && !s.closed
    ensures Moves(s, Close(s)) && Core(Close(s))
  {
    var s0 := s.(closed := true);
    assert Core(s0) by { assert forall x :: Accounted(s0, x) == Accounted(s, x); }
    QuietMoves(s, s0);
    var s1 := CancelHeads(s0);
    CancelHeadsKeeps(s0);
    CancelHeadsProgress(s0);
    ProgressMoves(s0, s1);
    MovesTrans(s, s0, s1);
    var s2 := CloseWorkersFrom(s1, 0);
    CloseWorkersMoves(s1, 0);
    MovesTrans(s, s1, s2);
    QuietMoves(s2, Close(s));
    CloseKeeps(s);
    MovesTrans(s, s2, Close(s));
  }

  lemma CloseStepKeeps(bounds: Bounds, scripts: Scripts, s: System)
    requires SystemInv(scripts, s) && Enabled(bounds, scripts, s, CloseScheduler)
    ensures SystemInv(scripts, Next(bounds, scripts, s, CloseScheduler))
  {
    CloseMoves(s.sched);
    MovedKeeps(scripts, s, Next(bounds, scripts, s, CloseScheduler));
  }
}
