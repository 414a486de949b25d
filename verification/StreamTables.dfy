/** The runtime's `_futures` and `_streams` tables agree with the scheduler in every interleaving. */
module StreamTables {
  import opened Messages
  import opened WorkerModel
  import opened SchedulerSpec
  import opened SchedulerInvariants
  import opened SchedulerProgress
  import opened StreamSystem
  import opened StreamInvariant
  import opened StreamScheduling
  import opened StreamWorkers
  import opened StreamPolls
  import opened StreamVisits
  import opened StreamTheorems

  ghost predicate HasEnd(ms: seq<Message>, id: RequestId) {
    exists k :: 0 <= k < |ms| && ms[k].requestId == Some(id) && Terminal(ms[k].kind)
  }

  ghost predicate Live(s: State, id: RequestId) {
    IsQueued(s, id) || IsRunning(s, id)
  }

  // Waiting, running, ended by a message not yet routed, or dropped without one.
  ghost predicate Tracked(s: System, id: RequestId) {
    Live(s.sched, id) || HasEnd(s.hand, id) || HasEnd(s.sched.events, id) || id in s.sched.log.dropped
  }

  ghost predicate HasStreamEnd(script: seq<Message>) {
    exists k :: 0 <= k < |script| && script[k].kind.StreamEnd?
  }

  // Messages on their way to the router are of their script or are failures.
  ghost predicate Genuine(scripts: Scripts, ms: seq<Message>) {
    forall k :: 0 <= k < |ms| && ms[k].requestId.Some? ==>
      ms[k].kind.Error? || ms[k].kind.Cancelled? || ms[k] in scripts(ms[k].requestId.value)
  }

  ghost predicate Gone(s: State, id: RequestId) {
    id in s.submitted && !Live(s, id)
  }

  // A request whose end is on its way to the router has left the scheduler.
  ghost predicate EndsGone(s: System) {
    forall id :: HasEnd(s.hand, id) || HasEnd(s.sched.events, id) || s.pc == Popping(id) ==> Gone(s.sched, id)
  }

  ghost predicate TablesOk(scripts: Scripts, s: System) {
    && s.futures <= s.sched.submitted && s.streams <= s.sched.submitted && s.resolved.Keys <= s.sched.submitted
    && s.futures !! s.streams && s.resolved.Keys !! s.futures && s.resolved.Keys !! s.streams
    && Genuine(scripts, s.hand) && Genuine(scripts, s.sched.events) && EndsGone(s)
    && (forall id :: id in s.futures && !HasStreamEnd(scripts(id)) ==> Tracked(s, id))
    && (forall id :: id in s.streams ==> Tracked(s, id) || s.pc == Popping(id))
    && (forall id :: Live(s.sched, id) ==> id in s.futures || id in s.streams || id in s.abandoned)
    && (s.pc.Checking? || s.pc.Putting? || s.pc.Draining? ==>
          s.hand != [] && s.hand[0].requestId.Some? && s.hand[0].requestId.value !in s.futures
          && s.hand[0].requestId.value in s.sched.submitted)
    && (s.pc.Draining? ==> s.hand[0].requestId.value !in s.streams)
  }

  /* ---- Internal work of the scheduler ---- */

  // Whatever stops waiting or running leaves its end among the events, or is dropped.
  ghost predicate Settles(s: State, r: State, id: RequestId) {
    Live(s, id) && !Live(r, id) ==> HasEnd(r.events, id) || id in r.log.dropped
  }

  lemma {:induction false} ListedOften(ids: seq<RequestId>, id: RequestId)
    requires Occurrences(ids, id) > 0
    ensures id in ids
  {
    if ids[|ids| - 1] != id { ListedOften(ids[..|ids| - 1], id); }
  }

  lemma {:induction false} OftenListed(ids: seq<RequestId>, id: RequestId)
    requires id in ids
    ensures Occurrences(ids, id) > 0
  {
    if ids[|ids| - 1] != id { OftenListed(ids[..|ids| - 1], id); }
  }

  lemma LiveIff(s: State, id: RequestId)
    requires Core(s)
    ensures Live(s, id) <==> InQueue(s.pending, id) + Running(s.workers, id) == 1
    ensures Live(s, id) ==> id in s.submitted && Reported(s.log.reports, id) == 0 && Occurrences(s.log.dropped, id) == 0
  {
    RunningIff(s, id);
    assert Accounted(s, id) == if id in s.submitted then 1 else 0;
  }

  lemma ProgressSettles(s: State, r: State, id: RequestId)
    requires Core(s) && Core(r) && Progress(s, r)
    ensures Settles(s, r, id)
  {
    if Live(s, id) && !Live(r, id) {
      LiveIff(s, id);
      LiveIff(r, id);
      assert Accounted(r, id) == 1;
      var more := r.events[|s.events|..];
      ReportedPlus(s.log.reports, more, id);
      if Occurrences(r.log.dropped, id) > 0 {
        ListedOften(r.log.dropped, id);
      } else {
        ForMember(id, more, 0);
        var k :| 0 <= k < |more| && more[k] == For(id, more)[0];
        assert r.events[|s.events| + k] == more[k];
      }
    }
  }

  // What the tables need of a step of the scheduler.
  ghost predicate Settled(scripts: Scripts, s: State, r: State) {
    && r.submitted == s.submitted && r.closed == s.closed && s.events <= r.events && s.log.dropped <= r.log.dropped
    && (forall id :: Live(r, id) ==> Live(s, id))
    && (forall id :: Settles(s, r, id))
    && Genuine(scripts, r.events[|s.events|..])
    && (forall id :: HasEnd(r.events[|s.events|..], id) ==> Gone(r, id))
  }

  lemma ProgressSettled(scripts: Scripts, s: State, r: State)
    requires Core(s) && Core(r) && Progress(s, r)
    ensures Settled(scripts, s, r)
  {
    ProgressMoves(s, r);
    forall id | Live(r, id) ensures Live(s, id) { Onward(s, r, id); }
    forall id ensures Settles(s, r, id) { ProgressSettles(s, r, id); }
    forall id | HasEnd(r.events[|s.events|..], id) ensures Gone(r, id) { NewEndGone(s, r, id); }
  }

  lemma NewEndGone(s: State, r: State, id: RequestId)
    requires Moves(s, r) && HasEnd(r.events[|s.events|..], id)
    ensures Gone(r, id)
  {
    var more := r.events[|s.events|..];
    var k :| 0 <= k < |more| && more[k].requestId == Some(id) && Terminal(more[k].kind);
    ForHas(id, more, k);
    assert EventsOk(s, r, id);
  }

  lemma HasEndConcat(a: seq<Message>, b: seq<Message>, id: RequestId)
    ensures HasEnd(a + b, id) <==> HasEnd(a, id) || HasEnd(b, id)
  {
    if HasEnd(a + b, id) {
      var k :| 0 <= k < |a + b| && (a + b)[k].requestId == Some(id) && Terminal((a + b)[k].kind);
      if k < |a| { assert a[k] == (a + b)[k]; } else { assert b[k - |a|] == (a + b)[k]; }
    }
    if HasEnd(a, id) { HasEndPrefix(a, a + b, id); }
    if HasEnd(b, id) { HasEndSuffix(a, b, id); }
  }

  lemma HasEndPrefix(a: seq<Message>, b: seq<Message>, id: RequestId)
    requires a <= b && HasEnd(a, id)
    ensures HasEnd(b, id)
  {
    var k :| 0 <= k < |a| && a[k].requestId == Some(id) && Terminal(a[k].kind);
    assert b[k] == a[k];
  }

  lemma HasEndSuffix(a: seq<Message>, b: seq<Message>, id: RequestId)
    requires HasEnd(b, id)
    ensures HasEnd(a + b, id)
  {
    var k :| 0 <= k < |b| && b[k].requestId == Some(id) && Terminal(b[k].kind);
    assert (a + b)[|a| + k] == b[k];
  }

  lemma TrackedOn(scripts: Scripts, s: System, s': System, id: RequestId)
    requires Settled(scripts, s.sched, s'.sched) && s'.hand == s.hand && Tracked(s, id)
    ensures Tracked(s', id)
  {
    assert Settles(s.sched, s'.sched, id);
    if HasEnd(s.sched.events, id) { HasEndPrefix(s.sched.events, s'.sched.events, id); }
  }

  lemma GenuineConcat(scripts: Scripts, a: seq<Message>, b: seq<Message>)
    requires Genuine(scripts, a) && Genuine(scripts, b)
    ensures Genuine(scripts, a + b)
  {
  }

  // The scheduler moved; the tables did not, or lost ids that are not live any more.
  lemma SettledTables(scripts: Scripts, s: System, s': System)
    requires TablesOk(scripts, s) && Settled(scripts, s.sched, s'.sched)
    requires s'.hand == s.hand && s'.resolved == s.resolved && s'.abandoned == s.abandoned
    requires s'.futures <= s.futures && s'.streams <= s.streams
    requires forall id :: id in (s.futures + s.streams) - (s'.futures + s'.streams) ==> !Live(s'.sched, id)
    requires s'.pc == s.pc || (s.pc.AtTop? && s'.pc.Polling?) || (s.pc.Polling? && (s'.pc.Polling? || s'.pc.AtTop?))
    ensures TablesOk(scripts, s')
  {
    forall id | Tracked(s, id) ensures Tracked(s', id) { TrackedOn(scripts, s, s', id); }
    var more := s'.sched.events[|s.sched.events|..];
    assert s'.sched.events == s.sched.events + more;
    GenuineConcat(scripts, s.sched.events, more);
    SettledEnds(scripts, s, s');
  }

  lemma SettledEnds(scripts: Scripts, s: System, s': System)
    requires EndsGone(s) && Settled(scripts, s.sched, s'.sched) && s'.hand == s.hand
    requires s'.pc.Popping? ==> s'.pc == s.pc
    ensures EndsGone(s')
  {
    forall id | HasEnd(s'.hand, id) || HasEnd(s'.sched.events, id) || s'.pc == Popping(id) ensures Gone(s'.sched, id) {
      assert s'.sched.events == s.sched.events + s'.sched.events[|s.sched.events|..];
      HasEndConcat(s.sched.events, s'.sched.events[|s.sched.events|..], id);
    }
  }

  lemma CollectTables(scripts: Scripts, s: System)
    requires TablesOk(scripts, s) && s.pc.Polling?
    ensures TablesOk(scripts, Collected(s))
  {
    var s' := Collected(s);
    forall id ensures Tracked(s, id) ==> Tracked(s', id) {
      CollectPlaces(s, id);
      if HasEnd(s.hand, id) { HasEndPrefix(s.hand, s'.hand, id); }
      if HasEnd(s.sched.events, id) { HasEndSuffix(s.hand, s.sched.events, id); }
    }
    forall id ensures Live(s'.sched, id) == Live(s.sched, id) { CollectPlaces(s, id); }
    forall id ensures HasEnd(s'.hand, id) ==> HasEnd(s.hand, id) || HasEnd(s.sched.events, id) {
      HasEndConcat(s.hand, s.sched.events, id);
    }
    GenuineConcat(scripts, s.hand, s.sched.events);
  }

  lemma PollBeginTables(bounds: Bounds, scripts: Scripts, s: System, now: real)
    requires Core(s.sched) && TablesOk(scripts, s) && s.pc.AtTop?
    ensures TablesOk(scripts, Next(bounds, scripts, s, PollBegin(now)))
  {
    var r := ExpirySettled(scripts, s.sched, now);
    var s1 := s.(sched := r, links := Relink(s.links, s.sched.active, r.active), pc := Polling(0));
    SettledTables(scripts, s, s1);
    CollectTables(scripts, s1);
  }

  lemma ExpirySettled(scripts: Scripts, s: State, now: real) returns (r: State)
    requires Core(s)
    ensures r == Expire(s, now) && Settled(scripts, s, r)
  {
    r := Expire(s, now);
    ExpireKeeps(s, now);
    ExpireProgress(s, now);
    ProgressSettled(scripts, s, r);
  }

  lemma PollEndTables(scripts: Scripts, s: System)
    requires Core(s.sched) && TablesOk(scripts, s) && s.pc.Polling?
    ensures TablesOk(scripts, Collected(s.(sched := FailPendingWithoutHealthy(s.sched))))
  {
    var r := FailPendingWithoutHealthy(s.sched);
    FailPendingKeeps(s.sched);
    FailPendingProgress(s.sched);
    ProgressSettled(scripts, s.sched, r);
    SettledTables(scripts, s, s.(sched := r));
    CollectTables(scripts, s.(sched := r));
  }

  /* ---- Visits ---- */

  lemma FinishSettled(scripts: Scripts, s: State, i: nat, m: Message)
    requires Core(s) && i in s.active && i < |s.workers| && Terminal(m.kind)
    requires m.requestId == None || (m.requestId == Some(s.active[i]) && m in scripts(s.active[i]))
    ensures Settled(scripts, s, Finish(s, i, Worker(WorkerState.Ready, None), m))
  {
    var r := Finish(s, i, Worker(WorkerState.Ready, None), m);
    forall id ensures Settles(s, r, id) && (Live(r, id) ==> Live(s, id)) {
      if id != s.active[i] {
        OtherStillRuns(s, i, m, id);
      } else if m.requestId.Some? {
        assert r.events[|s.events|] == m;
      }
      if IsRunning(r, id) {
        var w: nat :| w in r.active && r.active[w] == id;
        assert w in s.active && s.active[w] == id;
      }
    }
    assert r.events[|s.events|..] == [m];
    if m.requestId.Some? { FinishedGone(s, i, m); }
  }

  lemma FinishedGone(s: State, i: nat, m: Message)
    requires Core(s) && i in s.active && i < |s.workers| && Terminal(m.kind) && m.requestId == Some(s.active[i])
    ensures Gone(Finish(s, i, Worker(WorkerState.Ready, None), m), s.active[i])
  {
    var r := Finish(s, i, Worker(WorkerState.Ready, None), m);
    RunsOnce(s, i, i);
    if IsRunning(r, s.active[i]) {
      var w: nat :| w in r.active && r.active[w] == s.active[i];
      RunsOnce(s, i, w);
    }
  }

  lemma NoteSettled(scripts: Scripts, s: State, m: Message)
    requires (m.requestId.Some? ==> m in scripts(m.requestId.value)) && !Terminal(m.kind)
    ensures Settled(scripts, s, Emit(s, m))
  {
    var r := Emit(s, m);
    forall id ensures Live(r, id) == Live(s, id) {
      assert IsRunning(r, id) == IsRunning(s, id);
    }
    assert r.events[|s.events|..] == [m];
  }

  lemma SettledTrans(scripts: Scripts, s: State, t: State, r: State)
    requires Settled(scripts, s, t) && Settled(scripts, t, r)
    ensures Settled(scripts, s, r)
  {
    forall id ensures Settles(s, r, id) {
      assert Settles(s, t, id) && Settles(t, r, id);
      if HasEnd(t.events, id) { HasEndPrefix(t.events, r.events, id); }
    }
    assert r.events[|s.events|..] == t.events[|s.events|..] + r.events[|t.events|..];
    GenuineConcat(scripts, t.events[|s.events|..], r.events[|t.events|..]);
    forall id | HasEnd(r.events[|s.events|..], id) ensures Gone(r, id) {
      HasEndConcat(t.events[|s.events|..], r.events[|t.events|..], id);
    }
  }

  lemma HeadInScript(scripts: Scripts, s: System, i: nat)
    requires SystemInv(scripts, s) && i in s.sched.active && i < |s.links| && s.links[i].results != []
    ensures var m := s.links[i].results[0];
      m.requestId == None || (m.requestId == Some(s.sched.active[i]) && m in scripts(s.sched.active[i]))
  {
    Reading(scripts, s, i);
    HeadIsMine(s.links[i], s.sched.active[i]);
    HeadFromScript(scripts, s.links[i], s.sched.active[i]);
  }

  lemma HeadFromScript(scripts: Scripts, link: Link, id: RequestId)
    requires link.results != [] && Suffix(Wire(scripts, link, id), scripts(id))
    ensures link.results[0].requestId == Some(id) ==> link.results[0] in scripts(id)
  {
    TakeWire(scripts, link, id);
    var wire := Wire(scripts, link, id);
    if link.results[0].requestId == Some(id) {
      assert wire[0] == link.results[0];
      assert wire[0] == scripts(id)[|scripts(id)| - |wire|];
    }
  }

  lemma ReadSettled(scripts: Scripts, s: State, i: nat, m: Message, at: real, broken: set<nat>)
    requires Core(s) && i in s.active && i < |s.workers| && s.workers[i] == Worker(Busy, Some(s.active[i]))
    requires m.requestId == None || (m.requestId == Some(s.active[i]) && m in scripts(s.active[i]))
    ensures Settled(scripts, s, PollWorker(s, i, Reply(Got(m), at, broken)).0)
  {
    PollReads(s, i, m, at, broken);
    if Terminal(m.kind) {
      var u := Finish(s, i, Worker(WorkerState.Ready, None), m);
      FinishKeeps(s, i, Worker(WorkerState.Ready, None), m);
      FinishSettled(scripts, s, i, m);
      DispatchPendingKeeps(u, at, broken);
      DispatchPendingProgress(u, at, broken);
      ProgressSettled(scripts, u, DispatchPending(u, at, broken).0);
      SettledTrans(scripts, s, u, DispatchPending(u, at, broken).0);
    } else {
      NoteSettled(scripts, s, m);
    }
  }

  lemma SameSettled(scripts: Scripts, s: State)
    ensures Settled(scripts, s, s)
  {
    assert s.events[|s.events|..] == [];
  }

  lemma UnreadSettled(scripts: Scripts, s: State, i: nat, read: Read, at: real, broken: set<nat>)
    requires Core(s) && i in s.active && i < |s.workers| && s.workers[i] == Worker(Busy, Some(s.active[i])) && !read.Got?
    ensures Settled(scripts, s, PollWorker(s, i, Reply(read, at, broken)).0)
  {
    PollReadsNothing(s, i, read, at, broken);
    var (w, received) := Receive(s.workers[i], read);
    if received.Broke? {
      var m := Failure(FromWorker(i), s.active[i], received.code);
      ReportActiveKeeps(s, i, w, m);
      GiveUpProgress(s, i, w, m);
      ProgressSettled(scripts, s, Emit(Release(s, i, w), m));
    } else {
      SameSettled(scripts, s);
    }
  }

  lemma VisitTables(scripts: Scripts, s: System, i: nat, look: Look, at: real, broken: set<nat>)
    requires SystemInv(scripts, s) && TablesOk(scripts, s)
    requires s.pc == Polling(i) && AtWorker(s, i) && CanLook(s.links[i], look)
    ensures TablesOk(scripts, NextVisit(s, i, look, at, broken))
  {
    VisitSettled(scripts, s, i, look, at, broken);
    VisitElsewhere(s, i, look, at, broken, NextVisit(s, i, look, at, broken));
    SettledTables(scripts, s, NextVisit(s, i, look, at, broken));
  }

  lemma VisitSettled(scripts: Scripts, s: System, i: nat, look: Look, at: real, broken: set<nat>)
    requires SystemInv(scripts, s) && AtWorker(s, i) && CanLook(s.links[i], look)
    ensures Settled(scripts, s.sched, NextVisit(s, i, look, at, broken).sched)
  {
    var r := VisitLeads(s, i, look, at, broken);
    if i in s.sched.active { ReadIsGenuine(scripts, s, i, look); }
    SettledThere(scripts, s.sched, i, ReadOf(s.links[i], look), at, broken, r);
  }

  // What a visit reads for the request of worker `i` is of its script or names nothing.
  ghost predicate GenuineRead(scripts: Scripts, s: State, i: nat, read: Read) {
    && i in s.active && i < |s.workers| && s.workers[i] == Worker(Busy, Some(s.active[i]))
    && (read.Got? ==> read.message.requestId == None
                      || (read.message.requestId == Some(s.active[i]) && read.message in scripts(s.active[i])))
  }

  lemma ReadIsGenuine(scripts: Scripts, s: System, i: nat, look: Look)
    requires SystemInv(scripts, s) && AtWorker(s, i) && CanLook(s.links[i], look) && i in s.sched.active
    ensures GenuineRead(scripts, s.sched, i, ReadOf(s.links[i], look))
  {
    BusyOfActive(s.sched, i);
    if look.TakeHead? { HeadInScript(scripts, s, i); }
  }

  lemma SettledThere(scripts: Scripts, s: State, i: nat, read: Read, at: real, broken: set<nat>, r: State)
    requires Core(s) && (i in s.active ==> GenuineRead(scripts, s, i, read)) && i < |s.workers|
    requires r == if i in s.active then PollWorker(s, i, Reply(read, at, broken)).0 else s
    ensures Settled(scripts, s, r)
  {
    if i !in s.active {
      SameSettled(scripts, s);
    } else if read.Got? {
      ReadSettled(scripts, s, i, read.message, at, broken);
    } else {
      UnreadSettled(scripts, s, i, read, at, broken);
    }
  }

  // Where a visit takes the scheduler.
  lemma VisitLeads(s: System, i: nat, look: Look, at: real, broken: set<nat>) returns (r: State)
    requires AtWorker(s, i) && CanLook(s.links[i], look)
    ensures r == NextVisit(s, i, look, at, broken).sched
    ensures r == if i in s.sched.active then PollWorker(s.sched, i, Reply(ReadOf(s.links[i], look), at, broken)).0 else s.sched
  {
    r := NextVisit(s, i, look, at, broken).sched;
  }

  /* ---- Admission, cancellation and shutdown ---- */

  // The scheduler's part of an accepted admission.
  ghost predicate Admitted(s: State, r: State, id: RequestId) {
    && r.submitted == s.submitted + {id} && id !in s.submitted && !s.closed && !r.closed
    && r.events == s.events && r.log.dropped == s.log.dropped && Live(r, id)
    && (forall x :: x != id ==> Live(r, x) == Live(s, x))
  }

  lemma SubmitAdmits(s: State, request: Request, now: real, broken: set<nat>)
    requires Core(s) && !Submit(s, request, now, broken).1.Rejected?
    ensures Admitted(s, Submit(s, request, now, broken).0, request.id)
  {
    var (r, outcome) := Submit(s, request, now, broken);
    var id := request.id;
    SubmitCases(s, request, now, broken);
    if outcome.Dispatched? {
      var i := FirstReady(s.workers);
      assert i in r.active && r.active[i] == id;
      forall x | x != id ensures Live(r, x) == Live(s, x) {
        if IsRunning(s, x) { StillRunning(s, i, id, now, x); }
        if IsRunning(r, x) {
          var w: nat :| w in r.active && r.active[w] == x;
          assert w in s.active && s.active[w] == x;
        }
      }
    } else {
      forall x ensures InQueue(r.pending, x) == InQueue(s.pending, x) + One(Some(id), x) {
        JoinedQueue(s, r, request, now, x);
      }
      assert forall x :: IsRunning(r, x) == IsRunning(s, x);
    }
  }

  lemma AdmittedTables(scripts: Scripts, s: System, s': System, id: RequestId)
    requires TablesOk(scripts, s) && Admitted(s.sched, s'.sched, id) && LockFree(s)
    requires s' == s.(sched := s'.sched, links := s'.links, streams := s'.streams, futures := s'.futures, queues := s'.queues)
    requires (s'.streams == s.streams + {id} && s'.futures == s.futures) || (s'.streams == s.streams && s'.futures == s.futures + {id})
    ensures TablesOk(scripts, s')
  {
    assert forall x :: Tracked(s, x) ==> Tracked(s', x);
  }

  lemma RejectedTables(scripts: Scripts, s: System, i: nat)
    requires TablesOk(scripts, s) && i < |s.sched.workers|
    ensures TablesOk(scripts, s.(sched := Break(s.sched, i)))
  {
    var s' := s.(sched := Break(s.sched, i));
    forall x ensures Live(s'.sched, x) == Live(s.sched, x) {
      assert IsRunning(s'.sched, x) == IsRunning(s.sched, x);
    }
    assert forall x :: Tracked(s, x) ==> Tracked(s', x);
  }

  lemma SubmitTables(scripts: Scripts, s: System, request: Request, now: real, broken: set<nat>, asStream: bool)
    requires Core(s.sched) && TablesOk(scripts, s) && LockFree(s)
    ensures TablesOk(scripts, NextSubmit(s, request, now, broken, asStream))
  {
    var (r, outcome) := Submit(s.sched, request, now, broken);
    if outcome.Rejected? {
      SubmitCases(s.sched, request, now, broken);
      if r != s.sched { RejectedTables(scripts, s, FirstReady(s.sched.workers)); }
    } else {
      SubmitAdmits(s.sched, request, now, broken);
      SubmitParts(s, request, now, broken, asStream, NextSubmit(s, request, now, broken, asStream));
      AdmittedTables(scripts, s, NextSubmit(s, request, now, broken, asStream), request.id);
    }
  }

  lemma SubmitParts(s: System, request: Request, now: real, broken: set<nat>, asStream: bool, s': System)
    requires s' == NextSubmit(s, request, now, broken, asStream) && !Submit(s.sched, request, now, broken).1.Rejected?
    ensures s'.sched == Submit(s.sched, request, now, broken).0
    ensures s' == s.(sched := s'.sched, links := s'.links, streams := s'.streams, futures := s'.futures, queues := s'.queues)
    ensures s'.streams == if asStream then s.streams + {request.id} else s.streams
    ensures s'.futures == if asStream then s.futures else s.futures + {request.id}
  {
  }

  // A cancellation settles every request but the one it takes away.
  ghost predicate SettledBut(scripts: Scripts, s: State, r: State, id: RequestId) {
    && r.submitted == s.submitted && r.closed == s.closed && s.events <= r.events && s.log.dropped <= r.log.dropped
    && !Live(r, id)
    && (forall x :: Live(r, x) ==> Live(s, x))
    && (forall x :: x != id ==> Settles(s, r, x))
    && Genuine(scripts, r.events[|s.events|..])
    && (forall x :: HasEnd(r.events[|s.events|..], x) ==> Gone(r, x))
  }

  lemma CancelQueuedSettled(scripts: Scripts, s: State, id: RequestId)
    requires Core(s) && IndexOf(s.pending, id) < |s.pending|
    ensures SettledBut(scripts, s, Cancel(s, id).0, id)
  {
    var k := IndexOf(s.pending, id);
    var r := Cancel(s, id).0;
    forall x ensures InQueue(s.pending, x) == InQueue(r.pending, x) + One(Some(id), x) { CutOne(s.pending, k, x); }
    assert forall x :: IsRunning(r, x) == IsRunning(s, x);
    RunningIff(s, id);
    assert Accounted(s, id) <= 1;
    assert r.events[|s.events|..] == [];
  }

  // Only the request of worker `i` stops.
  lemma OnlyOneStops(s: State, i: nat, w: Worker, m: Message, x: RequestId)
    requires Core(s) && i in s.active && i < |s.workers|
    ensures var r := Record(Release(s, i, w), m); IsRunning(r, x) <==> IsRunning(s, x) && x != s.active[i]
  {
    var r := Record(Release(s, i, w), m);
    if IsRunning(r, x) {
      var v: nat :| v in r.active && r.active[v] == x;
      assert v in s.active && s.active[v] == x;
      if x == s.active[i] { RunsOnce(s, i, v); }
    }
    if IsRunning(s, x) && x != s.active[i] {
      var v: nat :| v in s.active && s.active[v] == x;
      assert v in r.active && r.active[v] == x;
    }
  }

  lemma TakenAway(scripts: Scripts, s: State, i: nat, w: Worker, m: Message)
    requires Core(s) && i in s.active && i < |s.workers|
    ensures SettledBut(scripts, s, Record(Release(s, i, w), m), s.active[i])
  {
    var r := Record(Release(s, i, w), m);
    RunsOnce(s, i, i);
    forall x ensures Live(r, x) <==> Live(s, x) && x != s.active[i] {
      OnlyOneStops(s, i, w, m, x);
    }
    assert r.events[|s.events|..] == [];
  }

  lemma SettledButTrans(scripts: Scripts, s: State, t: State, r: State, id: RequestId)
    requires SettledBut(scripts, s, t, id) && Settled(scripts, t, r)
    ensures SettledBut(scripts, s, r, id)
  {
    forall x | x != id ensures Settles(s, r, x) {
      assert Settles(s, t, x) && Settles(t, r, x);
      if HasEnd(t.events, x) { HasEndPrefix(t.events, r.events, x); }
    }
    assert r.events[|s.events|..] == t.events[|s.events|..] + r.events[|t.events|..];
    GenuineConcat(scripts, t.events[|s.events|..], r.events[|t.events|..]);
    forall x | HasEnd(r.events[|s.events|..], x) ensures Gone(r, x) {
      HasEndConcat(t.events[|s.events|..], r.events[|t.events|..], x);
    }
  }

  lemma CancelRunningIs(s: State, id: RequestId)
    requires Shape(s) && IndexOf(s.pending, id) == |s.pending| && HolderFrom(s, 0, id) < |s.workers|
    ensures var i := HolderFrom(s, 0, id);
      var m := Message(Cancelled, FromWorker(i), Some(id), StageActive, 0);
      Cancel(s, id).0 == FailPendingWithoutHealthy(Record(Release(s, i, Worker(Stopped, None)), m))
  {
    BusyOfActive(s, HolderFrom(s, 0, id));
  }

  lemma CancelRunningSettled(scripts: Scripts, s: State, id: RequestId)
    requires Core(s) && IndexOf(s.pending, id) == |s.pending| && HolderFrom(s, 0, id) < |s.workers|
    ensures SettledBut(scripts, s, Cancel(s, id).0, id)
  {
    var i := HolderFrom(s, 0, id);
    var w := Worker(Stopped, None);
    var m := Message(Cancelled, FromWorker(i), Some(id), StageActive, 0);
    var t := Record(Release(s, i, w), m);
    CancelRunningIs(s, id);
    TakenAway(scripts, s, i, w, m);
    ReportActiveKeeps(s, i, w, m);
    FailPendingKeeps(t);
    FailPendingProgress(t);
    ProgressSettled(scripts, t, FailPendingWithoutHealthy(t));
    SettledButTrans(scripts, s, t, FailPendingWithoutHealthy(t), id);
  }

  lemma CancelTables(scripts: Scripts, s: System, s': System, id: RequestId)
    requires TablesOk(scripts, s) && SettledBut(scripts, s.sched, s'.sched, id)
    requires s' == s.(sched := s'.sched, links := s'.links, futures := s.futures - {id}, streams := s.streams - {id})
    ensures TablesOk(scripts, s')
  {
    forall x | x != id && Tracked(s, x) ensures Tracked(s', x) {
      assert Settles(s.sched, s'.sched, x);
      if HasEnd(s.sched.events, x) { HasEndPrefix(s.sched.events, s'.sched.events, x); }
    }
    assert s'.sched.events == s.sched.events + s'.sched.events[|s.sched.events|..];
    GenuineConcat(scripts, s.sched.events, s'.sched.events[|s.sched.events|..]);
    forall x | HasEnd(s'.sched.events, x) ensures Gone(s'.sched, x) {
      HasEndConcat(s.sched.events, s'.sched.events[|s.sched.events|..], x);
    }
  }

  lemma CancelStepTables(bounds: Bounds, scripts: Scripts, s: System, id: RequestId)
    requires Core(s.sched) && TablesOk(scripts, s) && LockFree(s)
    ensures TablesOk(scripts, Next(bounds, scripts, s, CancelRequest(id)))
  {
    var s' := Next(bounds, scripts, s, CancelRequest(id));
    if IndexOf(s.sched.pending, id) < |s.sched.pending| {
      CancelQueuedSettled(scripts, s.sched, id);
      CancelTables(scripts, s, s', id);
    } else if HolderFrom(s.sched, 0, id) < |s.sched.workers| {
      CancelRunningSettled(scripts, s.sched, id);
      CancelTables(scripts, s, s', id);
    }
  }

  lemma {:induction false} CloseWorkersSettle(scripts: Scripts, s: State, i: nat)
    requires Core(s) && i <= |s.workers|
    ensures Settled(scripts, s, CloseWorkersFrom(s, i)) && Core(CloseWorkersFrom(s, i))
    decreases |s.workers| - i
  {
    SameSettled(scripts, s);
    if i < |s.workers| {
      var t := CloseWorker(s, i);
      CloseWorkerKeeps(s, i);
      CloseWorkerSettles(scripts, s, i);
      CloseWorkersSettle(scripts, t, i + 1);
      SettledTrans(scripts, s, t, CloseWorkersFrom(s, i));
    }
  }

  lemma CloseWorkerSettles(scripts: Scripts, s: State, i: nat)
    requires Core(s) && i < |s.workers|
    ensures Settled(scripts, s, CloseWorker(s, i))
  {
    var t := CloseWorker(s, i);
    forall x ensures Settles(s, t, x) && (Live(t, x) ==> Live(s, x)) {
      if IsRunning(t, x) {
        var w: nat :| w in t.active && t.active[w] == x;
        assert w in s.active && s.active[w] == x;
      }
      if IsRunning(s, x) {
        var w: nat :| w in s.active && s.active[w] == x;
        if w != i { assert w in t.active && t.active[w] == x; }
      }
    }
    assert t.events[|s.events|..] == [];
  }

  lemma CloseTables(bounds: Bounds, scripts: Scripts, s: System)
    requires Core(s.sched) && TablesOk(scripts, s) && LockFree(s) && s.stopped && !s.sched.closed
    ensures TablesOk(scripts, Next(bounds, scripts, s, CloseScheduler))
  {
    var s' := Next(bounds, scripts, s, CloseScheduler);
    var s0 := s.sched.(closed := true);
    CloseSettled(scripts, s.sched, s0);
    ClosedTables(scripts, s, s.(sched := s0));
    SettledTables(scripts, s.(sched := s0), s');
  }

  // Marking the scheduler closed moves nothing.
  lemma ClosedSame(s: State, s0: State)
    requires s0 == s.(closed := true)
    ensures forall id :: Live(s0, id) == Live(s, id) && Accounted(s0, id) == Accounted(s, id)
  {
  }

  lemma ClosedTables(scripts: Scripts, s: System, s0: System)
    requires TablesOk(scripts, s) && s0 == s.(sched := s.sched.(closed := true))
    ensures TablesOk(scripts, s0)
  {
    ClosedSame(s.sched, s0.sched);
    assert forall x :: Tracked(s0, x) == Tracked(s, x);
  }

  lemma CloseSettled(scripts: Scripts, s: State, s0: State)
    requires Core(s) && !s.closed && s0 == s.(closed := true)
    ensures Settled(scripts, s0, Close(s)) && forall id :: !Live(Close(s), id)
  {
    ClosedSame(s, s0);
    var s1 := CancelHeads(s0);
    CancelHeadsKeeps(s0);
    CancelHeadsProgress(s0);
    ProgressSettled(scripts, s0, s1);
    var s2 := CloseWorkersFrom(s1, 0);
    CloseWorkersSettle(scripts, s1, 0);
    CloseWorkersKeeps(s1, 0);
    SettledTrans(scripts, s0, s1, s2);
    AllStopped(s2);
  }

  lemma AllStopped(s: State)
    requires Shape(s) && forall k: nat :: k < |s.workers| ==> s.workers[k].state.Stopped?
    ensures s.active == map[] && s.started == map[] && (s.pending == [] ==> forall id :: !Live(s, id))
  {
    assert s.active.Keys == {};
    assert s.started.Keys == {};
  }

  /* ---- Routing ---- */

  ghost predicate EndsHead(s: System, x: RequestId)
    requires s.hand != []
  {
    s.hand[0].requestId == Some(x) && Terminal(s.hand[0].kind)
  }

  lemma HeadGoneTracked(s: System, s': System, x: RequestId)
    requires s.hand != [] && s'.hand == s.hand[1..] && s'.sched == s.sched
    ensures Tracked(s, x) && !EndsHead(s, x) ==> Tracked(s', x)
    ensures HasEnd(s'.hand, x) ==> HasEnd(s.hand, x)
  {
    assert s.hand == [s.hand[0]] + s.hand[1..];
    HasEndConcat([s.hand[0]], s.hand[1..], x);
  }

  // The head of the batch is gone; its request, if it ended, has left the tables or is about to.
  lemma HeadGoneTables(scripts: Scripts, s: System, s': System)
    requires TablesOk(scripts, s) && s.hand != []
    requires s' == s.(hand := s.hand[1..], pc := s'.pc, futures := s'.futures, resolved := s'.resolved,
                      lost := s'.lost, queues := s'.queues)
    requires s'.pc.Looking? || (s'.pc.Popping? && EndsHead(s, s'.pc.id))
    requires !s.pc.Popping? && s.lost <= s'.lost && s'.futures <= s.futures
    requires s'.resolved.Keys <= s.resolved.Keys + (s.futures - s'.futures)
    requires forall x :: x in s.futures - s'.futures ==> EndsHead(s, x)
    requires forall x :: EndsHead(s, x) ==> (x in s.streams ==> s'.pc == Popping(x))
    requires forall x :: EndsHead(s, x) ==> (x in s'.futures ==> HasStreamEnd(scripts(x)))
    ensures TablesOk(scripts, s')
  {
    forall x ensures (Tracked(s, x) && !EndsHead(s, x) ==> Tracked(s', x)) && (HasEnd(s'.hand, x) ==> HasEnd(s.hand, x)) {
      HeadGoneTracked(s, s', x);
    }
    forall x: RequestId | EndsHead(s, x) ensures HasEnd(s.hand, x) {
      assert s.hand[0].requestId == Some(x);
    }
  }

  // Only a script with a `stream_end` ends in a kind that resolves no future; a stream's kinds are all routed to its queue.
  lemma HeadKinds(scripts: Scripts, s: System, id: RequestId)
    requires TablesOk(scripts, s) && s.hand != [] && s.hand[0].requestId == Some(id)
    ensures !HasStreamEnd(scripts(id)) && Terminal(s.hand[0].kind) ==> Resolving(s.hand[0].kind)
    ensures ScriptOk(scripts(id), id, true) ==> Streamable(s.hand[0].kind)
  {
  }

  lemma LookGoneTables(scripts: Scripts, s: System)
    requires TablesOk(scripts, s) && Scripted(scripts, s) && s.pc.Looking? && s.hand != []
    requires !NextLook(s).pc.Checking?
    ensures TablesOk(scripts, NextLook(s))
  {
    if s.hand[0].requestId.Some? { HeadKinds(scripts, s, s.hand[0].requestId.value); }
    LookGoneIs(s, NextLook(s));
    HeadGoneTables(scripts, s, NextLook(s));
  }

  // What becomes of the tables when the head of the batch does not go to a stream queue.
  lemma LookGoneIs(s: System, s': System)
    requires s.pc.Looking? && s.hand != [] && s' == NextLook(s) && !s'.pc.Checking?
    ensures s' == s.(hand := s.hand[1..], futures := s'.futures, resolved := s'.resolved, lost := s'.lost)
    ensures s.lost <= s'.lost && s'.futures <= s.futures && forall x :: x in s.futures - s'.futures ==> EndsHead(s, x)
    ensures s'.resolved.Keys <= s.resolved.Keys + (s.futures - s'.futures)
    ensures s.hand[0].requestId.Some? ==> var id := s.hand[0].requestId.value;
      (Resolving(s.hand[0].kind) ==> id !in s'.futures) && (id in s.streams ==> !Streamable(s.hand[0].kind))
  {
  }

  lemma RepositionedTables(scripts: Scripts, s: System, s': System)
    requires TablesOk(scripts, s) && s.pc.Looking? && s' == s.(pc := s'.pc)
    requires s'.pc.AtTop? || (s'.pc.Checking? && s.hand != [] && HeadInStreams(s))
    ensures TablesOk(scripts, s')
  {
    assert forall x :: Tracked(s', x) == Tracked(s, x);
  }

  predicate HeadInStreams(s: System)
    requires s.hand != []
  {
    s.hand[0].requestId.Some? && s.hand[0].requestId.value in s.streams
  }

  lemma LookTables(scripts: Scripts, s: System, s': System)
    requires TablesOk(scripts, s) && Scripted(scripts, s) && s.pc.Looking? && s' == NextLook(s)
    ensures TablesOk(scripts, s')
  {
    if s.hand == [] || s'.pc.Checking? { RepositionedTables(scripts, s, s'); } else { LookGoneTables(scripts, s); }
  }

  lemma SamePlaceTables(scripts: Scripts, s: System, s': System)
    requires TablesOk(scripts, s)
    requires s' == s.(pc := s'.pc, queues := s'.queues, consumed := s'.consumed, lost := s'.lost, stopped := s'.stopped, links := s'.links)
    requires s.lost <= s'.lost
    requires s'.pc == s.pc || ((s.pc.Checking? || s.pc.Putting?) && (s'.pc.Checking? || s'.pc.Putting?))
    ensures TablesOk(scripts, s')
  {
    assert forall x :: Tracked(s', x) == Tracked(s, x);
  }

  lemma CheckTables(scripts: Scripts, s: System)
    requires TablesOk(scripts, s) && s.pc.Checking?
    ensures TablesOk(scripts, NextCheck(s))
  {
    var s' := NextCheck(s);
    if s'.pc.Putting? { SamePlaceTables(scripts, s, s'); } else { HeadGoneTables(scripts, s, s'); }
  }

  lemma GiveUpTables(scripts: Scripts, s: System)
    requires TablesOk(scripts, s) && s.pc.Putting?
    ensures TablesOk(scripts, NextGiveUp(s))
  {
    assert forall x :: Tracked(NextGiveUp(s), x) == Tracked(s, x);
  }

  lemma PopTables(scripts: Scripts, s: System)
    requires TablesOk(scripts, s) && s.pc.Popping?
    ensures TablesOk(scripts, s.(streams := s.streams - {s.pc.id}, pc := Looking))
  {
    assert forall x :: Tracked(s.(streams := s.streams - {s.pc.id}, pc := Looking), x) == Tracked(s, x);
  }

  /* ---- Every step ---- */

  lemma StepTables(bounds: Bounds, scripts: Scripts, s: System, step: Step)
    requires SystemInv(scripts, s) && TablesOk(scripts, s) && Enabled(bounds, scripts, s, step)
    ensures TablesOk(scripts, Next(bounds, scripts, s, step))
  {
    if step.Visit? { VisitTables(scripts, s, s.pc.next, step.look, step.at, step.broken); }
    else if OfScheduler(step) { SchedulingTables(bounds, scripts, s, step); }
    else { RoutingTables(bounds, scripts, s, step); }
  }

  lemma SchedulingTables(bounds: Bounds, scripts: Scripts, s: System, step: Step)
    requires Core(s.sched) && TablesOk(scripts, s) && Enabled(bounds, scripts, s, step) && OfScheduler(step) && !step.Visit?
    ensures TablesOk(scripts, Next(bounds, scripts, s, step))
  {
    if step.SubmitRequest? { SubmitTables(scripts, s, step.request, step.now, step.broken, step.asStream); }
    else if step.CancelRequest? { CancelStepTables(bounds, scripts, s, step.id); }
    else if step.PollBegin? { PollBeginTables(bounds, scripts, s, step.now); }
    else if step.PollEnd? { PollEndTables(scripts, s); }
    else { CloseTables(bounds, scripts, s); }
  }

  lemma RoutingTables(bounds: Bounds, scripts: Scripts, s: System, step: Step)
    requires TablesOk(scripts, s) && Scripted(scripts, s) && Enabled(bounds, scripts, s, step)
    requires !OfScheduler(step)
    ensures TablesOk(scripts, Next(bounds, scripts, s, step))
  {
    var s' := Next(bounds, scripts, s, step);
    if step.RouteLook? { LookTables(scripts, s, s'); }
    else if step.RouteCheck? { CheckTables(scripts, s); }
    else if step.RoutePop? { PopTables(scripts, s); }
    else if step.RouteGiveUp? { GiveUpTables(scripts, s); }
    else if step.RoutePut? { HeadGoneTables(scripts, s, s'); }
    else if step.DrainDone? { DrainedTables(scripts, s, s'); }
    else { SamePlaceTables(scripts, s, s'); }
  }

  lemma DrainedTables(scripts: Scripts, s: System, s': System)
    requires TablesOk(scripts, s) && s.pc.Draining?
    requires s' == s.(queues := s'.queues, hand := s.hand[1..], pc := Looking)
    ensures TablesOk(scripts, s')
  {
    HeadGoneTables(scripts, s, s');
  }

  lemma InitTables(scripts: Scripts, s: System)
    requires SystemInit(s)
    ensures TablesOk(scripts, s)
  {
    assert forall id :: !Live(s.sched, id);
  }

  lemma {:induction false} RunTables(bounds: Bounds, scripts: Scripts, s: System, steps: seq<Step>, r: System)
    requires SystemInv(scripts, s) && TablesOk(scripts, s) && IsRun(bounds, scripts, s, steps, r)
    ensures TablesOk(scripts, r)
    decreases |steps|
  {
    if steps != [] {
      StepKeepsInv(bounds, scripts, s, steps[0]);
      StepTables(bounds, scripts, s, steps[0]);
      RunTables(bounds, scripts, Next(bounds, scripts, s, steps[0]), steps[1..], r);
    }
  }

  /** In every reachable state: a stream in the table, and a future in the table whose script has no `stream_end`, is
      waiting, running, ended by a message not yet routed (or routed and about to be removed), or dropped by
      the scheduler; no id is in both tables; a resolved future is in neither; and a request that waits or
      runs is in a table unless it is a stream that the runtime gave up because its consumer was too slow. */
  lemma TablesAgree(bounds: Bounds, scripts: Scripts, s: System, id: RequestId)
    requires Reachable(bounds, scripts, s)
    ensures id in s.streams ==> Tracked(s, id) || s.pc == Popping(id)
    ensures id in s.futures && !HasStreamEnd(scripts(id)) ==> Tracked(s, id)
    ensures !(id in s.streams && id in s.futures)
    ensures id in s.resolved ==> id !in s.streams && id !in s.futures
    ensures Live(s.sched, id) ==> id in s.futures || id in s.streams || id in s.abandoned
  {
    ReachableTables(bounds, scripts, s);
  }

  lemma ReachableTables(bounds: Bounds, scripts: Scripts, s: System)
    requires Reachable(bounds, scripts, s)
    ensures TablesOk(scripts, s)
  {
    var s0: System, steps: seq<Step> :| SystemInit(s0) && IsRun(bounds, scripts, s0, steps, s);
    InitIsOk(scripts, s0);
    InitTables(scripts, s0);
    RunTables(bounds, scripts, s0, steps, s);
  }
}
