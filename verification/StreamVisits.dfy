/** The visits of the poll loop keep the invariant of the request path. */
module StreamVisits {
  import opened Messages
  import opened WorkerModel
  import opened SchedulerSpec
  import opened SchedulerInvariants
  import opened SchedulerProgress
  import opened StreamSystem
  import opened StreamInvariant
  import opened StreamScheduling

  /* ---- One link ---- */

  function Taken(link: Link): Link
    requires link.results != []
  {
    link.(results := link.results[1..])
  }

  // The head of a live request's result queue names it, or is the child's anonymous last word.
  lemma HeadIsMine(link: Link, id: RequestId)
    requires AnonymousLast(link) && BusyLink(link, id) && link.results != []
    ensures var m := link.results[0];
      && m.requestId in {None, Some(id)}
      && (m.requestId.None? ==> m.kind.Error? && link.results == [m] && !link.alive)
  {
  }

  // Taking the head moves it from upstream to downstream.
  lemma TakeWire(scripts: Scripts, link: Link, id: RequestId)
    requires link.results != []
    ensures Wire(scripts, link, id)
         == (if link.results[0].requestId == Some(id) then [link.results[0]] else []) + Wire(scripts, Taken(link), id)
  {
  }

  // A message that does not end the request leaves more to come.
  lemma TakeChunk(scripts: Scripts, link: Link, id: RequestId, flow: seq<Message>, lost: bool)
    requires RunOk(scripts, flow, lost, link, id) && link.results != []
    requires ScriptOk(scripts(id), id, true) || ScriptOk(scripts(id), id, false)
    requires link.results[0].requestId == Some(id) && !Terminal(link.results[0].kind)
    ensures RunOk(scripts, flow + [link.results[0]], lost, Taken(link), id)
  {
    TakeWire(scripts, link, id);
    ChunkThenRest(scripts(id), id, flow, lost, link.results[0], Wire(scripts, Taken(link), id));
  }

  lemma ChunkThenRest(script: seq<Message>, id: RequestId, flow: seq<Message>, lost: bool, m: Message, rest: seq<Message>)
    requires ScriptOk(script, id, true) || ScriptOk(script, id, false)
    requires Suffix([m] + rest, script) && (!lost ==> flow + ([m] + rest) == script) && !Terminal(m.kind)
    ensures rest != [] && Suffix(rest, script) && (!lost ==> flow + [m] + rest == script)
  {
    assert ([m] + rest)[0] == m;
    assert rest == ([m] + rest)[1..];
    assert flow + [m] + rest == flow + ([m] + rest);
  }

  // A message that ends the request is the last of its script, and leaves the link quiet.
  lemma TakeEnd(scripts: Scripts, link: Link, id: RequestId, flow: seq<Message>, lost: bool)
    requires RunOk(scripts, flow, lost, link, id) && link.results != []
    requires ScriptOk(scripts(id), id, true) || ScriptOk(scripts(id), id, false)
    requires AnonymousLast(link) && BusyLink(link, id)
    requires link.results[0].requestId == Some(id) && Terminal(link.results[0].kind)
    ensures !lost ==> flow + [link.results[0]] == scripts(id)
    ensures AnonymousLast(Taken(link)) && QuietLink(Taken(link))
  {
    var m, wire, rest := link.results[0], Wire(scripts, link, id), Wire(scripts, Taken(link), id);
    TakeWire(scripts, link, id);
    assert wire == [m] + rest;
    assert wire[0] == scripts(id)[|scripts(id)| - |wire|];
    assert |wire| == 1 && rest == [];
    forall k | 0 <= k < |Taken(link).results| ensures Taken(link).results[k].requestId.None? {
      if Taken(link).results[k].requestId == Some(id) { ForHas(id, Taken(link).results, k); }
    }
  }

  lemma {:induction false} ForHas(id: RequestId, ms: seq<Message>, k: nat)
    requires k < |ms| && ms[k].requestId == Some(id)
    ensures For(id, ms) != []
  {
    if k > 0 { ForHas(id, ms[1..], k - 1); }
  }

  /* ---- The read, before any dispatch ---- */

  // `s'` is `s` after the head of worker `i`'s results was read and put on record.
  ghost predicate HeadRead(s: System, i: nat, s': System) {
    && |s.links| == |s.sched.workers| && i < |s.links| && i in s.sched.active && s.links[i].results != []
    && s' == s.(sched := s'.sched, links := s.links[i := Taken(s.links[i])], pc := s'.pc)
    && s'.sched.events == s.sched.events + [s.links[i].results[0]]
    && s'.sched.pending == s.sched.pending && s'.sched.submitted == s.sched.submitted
  }

  lemma ReadFlow(s: System, i: nat, s': System, x: RequestId)
    requires HeadRead(s, i, s')
    ensures Flow(s', x) == Flow(s, x) + if s.links[i].results[0].requestId == Some(x) then [s.links[i].results[0]] else []
  {
    ForAppend(x, s.sched.events, s.links[i].results[0]);
  }

  // Facts about worker `i` and its request.
  lemma Reading(scripts: Scripts, s: System, i: nat)
    requires Core(s.sched) && |s.links| == |s.sched.workers| && LinksOk(s) && RunningOk(scripts, s) && Scripted(scripts, s)
    requires i in s.sched.active
    ensures i < |s.links| == |s.sched.workers|
    ensures var id := s.sched.active[i];
      && s.sched.workers[i] == Worker(Busy, Some(id))
      && AnonymousLast(s.links[i]) && BusyLink(s.links[i], id)
      && RunOk(scripts, Flow(s, id), id in s.lost, s.links[i], id)
      && (ScriptOk(scripts(id), id, true) || ScriptOk(scripts(id), id, false))
      && !IsQueued(s.sched, id) && id in s.sched.submitted
  {
    RunsOnce(s.sched, i, i);
    assert LinkOk(s.sched.workers[i], s.links[i]);
    assert RunOkAt(scripts, s, i);
  }

  lemma OthersFlow(s: System, i: nat, s': System, w: nat)
    requires HeadRead(s, i, s') && w in s.sched.active && s.links[i].results[0].requestId != Some(s.sched.active[w])
    ensures Flow(s', s.sched.active[w]) == Flow(s, s.sched.active[w])
  {
    ReadFlow(s, i, s', s.sched.active[w]);
  }

  lemma SameRunOk(scripts: Scripts, s: System, s': System, w: nat)
    requires w in s.sched.active && w in s'.sched.active && w < |s.links| && w < |s'.links|
    requires s'.sched.active[w] == s.sched.active[w] && s'.links[w] == s.links[w] && s'.lost == s.lost
    requires Flow(s', s.sched.active[w]) == Flow(s, s.sched.active[w]) && RunOkAt(scripts, s, w)
    ensures RunOkAt(scripts, s', w)
  {
  }

  lemma ReadUntouched(s: System, i: nat, s': System)
    requires HeadRead(s, i, s') && UntouchedOk(s)
    requires s.links[i].results[0].requestId in {None, Some(s.sched.active[i])}
    requires s.sched.active[i] in s.sched.submitted && !IsQueued(s.sched, s.sched.active[i])
    ensures UntouchedOk(s')
  {
    forall x | x !in s'.sched.submitted || IsQueued(s'.sched, x) ensures Flow(s', x) == [] && x !in s'.lost {
      ReadFlow(s, i, s', x);
      assert x !in s.sched.submitted || IsQueued(s.sched, x);
    }
  }

  /* ---- A message that does not end the request ---- */

  ghost predicate ReadChunk(s: System, i: nat, s': System) {
    && HeadRead(s, i, s') && !Terminal(s.links[i].results[0].kind)
    && s'.sched == Emit(s.sched, s.links[i].results[0])
  }

  lemma NoteKeeps(s: State, m: Message)
    requires Core(s) && !Terminal(m.kind)
    ensures Core(Emit(s, m))
  {
    forall id ensures Accounted(Emit(s, m), id) == Accounted(s, id) { ReportedAppend(s.log.reports, m, id); }
    MoveKeeps(s, Emit(s, m));
  }

  lemma ChunkRuns(scripts: Scripts, s: System, i: nat, s': System, w: nat)
    requires SystemInv(scripts, s) && ReadChunk(s, i, s') && w in s'.sched.active && w < |s'.links|
    ensures RunOkAt(scripts, s', w)
  {
    Reading(scripts, s, i);
    var id := s.sched.active[i];
    HeadIsMine(s.links[i], id);
    if w == i {
      TakeChunk(scripts, s.links[i], id, Flow(s, id), id in s.lost);
      ReadFlow(s, i, s', id);
    } else {
      if s.sched.active[w] == id { RunsOnce(s.sched, i, w); }
      assert RunOkAt(scripts, s, w);
      OthersFlow(s, i, s', w);
      SameRunOk(scripts, s, s', w);
    }
  }

  lemma ChunkEnded(scripts: Scripts, s: System, i: nat, s': System)
    requires ReadChunk(s, i, s') && EndedOk(scripts, s)
    requires s.links[i].results[0].requestId in {None, Some(s.sched.active[i])}
    ensures EndedOk(scripts, s')
  {
    forall x | Ended(s'.sched, x) && x !in s'.lost ensures Faithful(Flow(s', x), scripts(x)) {
      assert IsRunning(s.sched, x) ==> IsRunning(s'.sched, x);
      ReadFlow(s, i, s', x);
      assert IsRunning(s.sched, s.sched.active[i]);
    }
  }

  lemma ChunkLinks(s: System, i: nat, s': System)
    requires ReadChunk(s, i, s') && LinksOk(s)
    ensures LinksOk(s')
  {
    forall w | 0 <= w < |s'.links| ensures LinkOk(s'.sched.workers[w], s'.links[w]) {
      assert LinkOk(s.sched.workers[w], s.links[w]);
    }
  }

  lemma ChunkKeeps(scripts: Scripts, s: System, i: nat, s': System)
    requires SystemInv(scripts, s) && ReadChunk(s, i, s') && Control(s')
    ensures SystemInv(scripts, s')
  {
    Reading(scripts, s, i);
    HeadIsMine(s.links[i], s.sched.active[i]);
    NoteKeeps(s.sched, s.links[i].results[0]);
    forall w: nat | w in s'.sched.active && w < |s'.links| ensures RunOkAt(scripts, s', w) {
      ChunkRuns(scripts, s, i, s', w);
    }
    ChunkEnded(scripts, s, i, s');
    ChunkLinks(s, i, s');
    ReadUntouched(s, i, s');
  }

  /* ---- A message that ends the request ---- */

  ghost predicate ReadEnd(s: System, i: nat, s': System) {
    && HeadRead(s, i, s') && Terminal(s.links[i].results[0].kind)
    && s'.sched == Finish(s.sched, i, Worker(WorkerState.Ready, None), s.links[i].results[0])
  }

  lemma EndRunning(scripts: Scripts, s: System, i: nat, s': System)
    requires SystemInv(scripts, s) && ReadEnd(s, i, s')
    ensures RunningOk(scripts, s')
  {
    Reading(scripts, s, i);
    HeadIsMine(s.links[i], s.sched.active[i]);
    forall w: nat | w in s'.sched.active && w < |s'.links| ensures RunOkAt(scripts, s', w) {
      if s.sched.active[w] == s.sched.active[i] { RunsOnce(s.sched, i, w); }
      assert RunOkAt(scripts, s, w);
      OthersFlow(s, i, s', w);
      SameRunOk(scripts, s, s', w);
    }
  }

  // The request whose end was read: all of its script is downstream, or a part and nothing more.
  lemma EndedNow(scripts: Scripts, s: System, i: nat, s': System)
    requires SystemInv(scripts, s) && ReadEnd(s, i, s') && s.sched.active[i] !in s.lost
    ensures Faithful(Flow(s', s.sched.active[i]), scripts(s.sched.active[i]))
  {
    Reading(scripts, s, i);
    var id, m := s.sched.active[i], s.links[i].results[0];
    ReadFlow(s, i, s', id);
    HeadIsMine(s.links[i], id);
    if m.requestId.Some? { TakeEnd(scripts, s.links[i], id, Flow(s, id), false); }
  }

  lemma EndedBefore(scripts: Scripts, s: System, i: nat, s': System, x: RequestId)
    requires ReadEnd(s, i, s') && EndedOk(scripts, s) && x != s.sched.active[i]
    requires s.links[i].results[0].requestId in {None, Some(s.sched.active[i])}
    requires Ended(s'.sched, x) && x !in s'.lost
    ensures Faithful(Flow(s', x), scripts(x))
  {
    ReadFlow(s, i, s', x);
    OtherStillRuns(s.sched, i, s.links[i].results[0], x);
    assert Ended(s.sched, x);
  }

  lemma EndEnded(scripts: Scripts, s: System, i: nat, s': System)
    requires SystemInv(scripts, s) && ReadEnd(s, i, s')
    ensures EndedOk(scripts, s')
  {
    Reading(scripts, s, i);
    HeadIsMine(s.links[i], s.sched.active[i]);
    forall x | Ended(s'.sched, x) && x !in s'.lost ensures Faithful(Flow(s', x), scripts(x)) {
      if x == s.sched.active[i] {
        EndedNow(scripts, s, i, s');
      } else {
        EndedBefore(scripts, s, i, s', x);
      }
    }
  }

  lemma OtherStillRuns(s: State, i: nat, m: Message, x: RequestId)
    requires i < |s.workers| && i in s.active && x != s.active[i]
    ensures IsRunning(s, x) ==> IsRunning(Finish(s, i, Worker(WorkerState.Ready, None), m), x)
  {
    if IsRunning(s, x) {
      var w: nat :| w in s.active && s.active[w] == x;
      var r := Finish(s, i, Worker(WorkerState.Ready, None), m);
      assert w in r.active && r.active[w] == x;
    }
  }

  lemma EndLinks(scripts: Scripts, s: System, i: nat, s': System)
    requires SystemInv(scripts, s) && ReadEnd(s, i, s')
    ensures LinksOk(s')
  {
    Reading(scripts, s, i);
    var id, m := s.sched.active[i], s.links[i].results[0];
    HeadIsMine(s.links[i], id);
    if m.requestId.Some? { TakeEnd(scripts, s.links[i], id, Flow(s, id), id in s.lost); }
    forall w | 0 <= w < |s'.links| ensures LinkOk(s'.sched.workers[w], s'.links[w]) {
      assert LinkOk(s.sched.workers[w], s.links[w]);
    }
  }

  lemma EndKeeps(scripts: Scripts, s: System, i: nat, s': System)
    requires SystemInv(scripts, s) && ReadEnd(s, i, s') && Control(s')
    ensures SystemInv(scripts, s')
  {
    Reading(scripts, s, i);
    HeadIsMine(s.links[i], s.sched.active[i]);
    FinishKeeps(s.sched, i, Worker(WorkerState.Ready, None), s.links[i].results[0]);
    EndRunning(scripts, s, i, s');
    EndEnded(scripts, s, i, s');
    EndLinks(scripts, s, i, s');
    ReadUntouched(s, i, s');
  }

  /* ---- The whole visit ---- */

  lemma PcKeeps(scripts: Scripts, s: System, pc: Dispatcher)
    requires SystemInv(scripts, s) && Control(s.(pc := pc))
    ensures SystemInv(scripts, s.(pc := pc))
  {
    var s' := s.(pc := pc);
    assert forall x :: Flow(s', x) == Flow(s, x);
    assert RunningOk(scripts, s') by {
      forall w: nat | w in s'.sched.active && w < |s'.links| ensures RunOkAt(scripts, s', w) {
        assert RunOkAt(scripts, s, w);
      }
    }
  }

  // A failed read: the worker fails and its request with it.
  function AfterFailure(s: System, i: nat, w: Worker, code: Code, pc: Dispatcher): System
    requires i in s.sched.active && i < |s.sched.workers|
  {
    s.(sched := Emit(Release(s.sched, i, w), Failure(FromWorker(i), s.sched.active[i], code)), pc := pc)
  }

  lemma FailedMoved(s: System, i: nat, w: Worker, code: Code, pc: Dispatcher)
    requires Core(s.sched) && |s.links| == |s.sched.workers|
    requires i in s.sched.active && i < |s.sched.workers| && w.state.Failed?
    ensures Moved(s, AfterFailure(s, i, w, code, pc))
  {
    var m := Failure(FromWorker(i), s.sched.active[i], code);
    var r := Emit(Release(s.sched, i, w), m);
    ReportActiveKeeps(s.sched, i, w, m);
    GiveUpProgress(s.sched, i, w, m);
    ProgressMoves(s.sched, r);
  }

  lemma FailedVisitKeeps(scripts: Scripts, s: System, i: nat, w: Worker, code: Code, pc: Dispatcher)
    requires SystemInv(scripts, s) && i in s.sched.active && i < |s.sched.workers| && w.state.Failed?
    requires Control(s.(pc := pc))
    ensures SystemInv(scripts, AfterFailure(s, i, w, code, pc))
  {
    FailedMoved(s, i, w, code, pc);
    MovedKeeps(scripts, s, AfterFailure(s, i, w, code, pc));
  }

  lemma DispatchStepKeeps(scripts: Scripts, s: System, at: real, broken: set<nat>, pc: Dispatcher)
    requires SystemInv(scripts, s) && Control(s.(pc := pc))
    ensures var r := DispatchPending(s.sched, at, broken).0;
      SystemInv(scripts, s.(sched := r, links := Relink(s.links, s.sched.active, r.active), pc := pc))
  {
    var r := DispatchPending(s.sched, at, broken).0;
    var s' := s.(sched := r, links := Relink(s.links, s.sched.active, r.active), pc := pc);
    DispatchMoved(s, at, broken, r, s');
    MovedKeeps(scripts, s, s');
  }

  lemma DispatchMoved(s: System, at: real, broken: set<nat>, r: State, s': System)
    requires Core(s.sched) && |s.links| == |s.sched.workers| && r == DispatchPending(s.sched, at, broken).0
    requires s' == s.(sched := r, links := Relink(s.links, s.sched.active, r.active), pc := s'.pc)
    ensures Moved(s, s')
  {
    DispatchPendingKeeps(s.sched, at, broken);
    DispatchPendingProgress(s.sched, at, broken);
    ProgressMoves(s.sched, r);
  }

  // What a visit does to the scheduler when it reads the message `m`.
  lemma PollReads(s: State, i: nat, m: Message, at: real, broken: set<nat>)
    requires i < |s.workers| && i in s.active && s.workers[i] == Worker(Busy, Some(s.active[i]))
    requires m.requestId in {None, Some(s.active[i])}
    ensures var reply := Reply(Got(m), at, broken);
      && EndsRequest(Receive(s.workers[i], reply.read).1) == Terminal(m.kind)
      && Receive(s.workers[i], reply.read).1 != Broke(RequestIdMismatch)
      && PollWorker(s, i, reply)
         == if Terminal(m.kind) then DispatchPending(Finish(s, i, Worker(WorkerState.Ready, None), m), at, broken)
            else (Emit(s, m), false)
  {
    assert s.workers[i := s.workers[i]] == s.workers;
  }

  lemma EndVisitKeeps(scripts: Scripts, s: System, i: nat, at: real, broken: set<nat>, pc: Dispatcher)
    requires SystemInv(scripts, s) && s.pc == Polling(i) && i in s.sched.active && i < |s.links|
    requires s.links[i].results != [] && Terminal(s.links[i].results[0].kind)
    requires pc.AtTop? || pc == Polling(i + 1)
    ensures var u := Finish(s.sched, i, Worker(WorkerState.Ready, None), s.links[i].results[0]);
      var r := DispatchPending(u, at, broken).0;
      SystemInv(scripts, s.(sched := r, links := Relink(AfterLook(s.links, i, TakeHead), u.active, r.active), pc := pc))
  {
    var s1 := s.(sched := Finish(s.sched, i, Worker(WorkerState.Ready, None), s.links[i].results[0]),
                 links := AfterLook(s.links, i, TakeHead));
    EndIsRead(s, i, s1, pc);
    EndKeeps(scripts, s, i, s1);
    DispatchStepKeeps(scripts, s1, at, broken, pc);
  }

  lemma EndIsRead(s: System, i: nat, s1: System, pc: Dispatcher)
    requires Control(s) && s.pc == Polling(i) && i in s.sched.active && i < |s.links|
    requires s.links[i].results != [] && Terminal(s.links[i].results[0].kind) && (pc.AtTop? || pc == Polling(i + 1))
    requires s1 == s.(sched := Finish(s.sched, i, Worker(WorkerState.Ready, None), s.links[i].results[0]),
                      links := AfterLook(s.links, i, TakeHead))
    ensures ReadEnd(s, i, s1) && Control(s1) && Control(s1.(pc := pc))
  {
  }

  lemma ChunkVisitKeeps(scripts: Scripts, s: System, i: nat)
    requires SystemInv(scripts, s) && s.pc == Polling(i) && i in s.sched.active && i < |s.links|
    requires s.links[i].results != [] && !Terminal(s.links[i].results[0].kind)
    ensures SystemInv(scripts, s.(sched := Emit(s.sched, s.links[i].results[0]),
                                  links := AfterLook(s.links, i, TakeHead), pc := Polling(i + 1)))
  {
    ChunkKeeps(scripts, s, i, s.(sched := Emit(s.sched, s.links[i].results[0]),
                                 links := AfterLook(s.links, i, TakeHead), pc := Polling(i + 1)));
  }

  // The head, and what the visit makes of it.
  lemma HeadOfActive(scripts: Scripts, s: System, i: nat)
    requires SystemInv(scripts, s) && i in s.sched.active && i < |s.links| && s.links[i].results != []
    ensures i < |s.sched.workers| && s.sched.workers[i] == Worker(Busy, Some(s.sched.active[i]))
    ensures s.links[i].results[0].requestId in {None, Some(s.sched.active[i])}
  {
    Reading(scripts, s, i);
    HeadIsMine(s.links[i], s.sched.active[i]);
  }

  lemma News(s: System, i: nat, at: real, broken: set<nat>)
    requires AtWorker(s, i) && i in s.sched.active && s.sched.workers[i] == Worker(Busy, Some(s.sched.active[i]))
    requires s.links[i].results != [] && s.links[i].results[0].requestId in {None, Some(s.sched.active[i])}
    ensures var m := s.links[i].results[0];
      var links := AfterLook(s.links, i, TakeHead);
      NextVisit(s, i, TakeHead, at, broken)
      == if Terminal(m.kind) then
           var u := Finish(s.sched, i, Worker(WorkerState.Ready, None), m);
           var (r, raised) := DispatchPending(u, at, broken);
           s.(sched := r, links := Relink(links, u.active, r.active), pc := if raised then AtTop else Polling(i + 1))
         else s.(sched := Emit(s.sched, m), links := links, pc := Polling(i + 1))
  {
    PollReads(s.sched, i, s.links[i].results[0], at, broken);
    NoRelink(AfterLook(s.links, i, TakeHead), s.sched.active);
  }

  lemma TakenVisitKeeps(scripts: Scripts, s: System, i: nat, at: real, broken: set<nat>)
    requires SystemInv(scripts, s) && s.pc == Polling(i) && AtWorker(s, i)
    requires i in s.sched.active && s.links[i].results != []
    ensures SystemInv(scripts, NextVisit(s, i, TakeHead, at, broken))
  {
    HeadOfActive(scripts, s, i);
    News(s, i, at, broken);
    var m := s.links[i].results[0];
    if Terminal(m.kind) {
      var raised := DispatchPending(Finish(s.sched, i, Worker(WorkerState.Ready, None), m), at, broken).1;
      EndVisitKeeps(scripts, s, i, at, broken, if raised then AtTop else Polling(i + 1));
    } else {
      ChunkVisitKeeps(scripts, s, i);
    }
  }

  // What a visit does when it reads no message.
  lemma PollReadsNothing(s: State, i: nat, read: Read, at: real, broken: set<nat>)
    requires i < |s.workers| && i in s.active && s.workers[i] == Worker(Busy, Some(s.active[i])) && !read.Got?
    ensures var (w, received) := Receive(s.workers[i], read);
      && (received.TimedOut? || (received.Broke? && w.state.Failed?)) && EndsRequest(received) == received.Broke?
      && PollWorker(s, i, Reply(read, at, broken))
         == if received.Broke? then (Emit(Release(s, i, w), Failure(FromWorker(i), s.active[i], received.code)), false)
            else (s, false)
  {
  }

  lemma BusyOfActive(s: State, i: nat)
    requires Shape(s) && i in s.active
    ensures i < |s.workers| && s.workers[i] == Worker(Busy, Some(s.active[i]))
  {
  }

  lemma NoNews(s: System, i: nat, look: Look, at: real, broken: set<nat>)
    requires AtWorker(s, i) && CanLook(s.links[i], look) && !look.TakeHead? && Shape(s.sched) && i in s.sched.active
    ensures var (w, received) := Receive(s.sched.workers[i], ReadOf(s.links[i], look));
      && (received.Broke? ==> w.state.Failed?)
      && NextVisit(s, i, look, at, broken)
         == if received.Broke? then AfterFailure(s, i, w, received.code, Polling(i + 1)) else s.(pc := Polling(i + 1))
  {
    BusyOfActive(s.sched, i);
    PollReadsNothing(s.sched, i, ReadOf(s.links[i], look), at, broken);
    NoRelink(s.links, s.sched.active);
    NoRelink(s.links, s.sched.active - {i});
  }

  lemma VisitKeeps(scripts: Scripts, s: System, i: nat, look: Look, at: real, broken: set<nat>)
    requires SystemInv(scripts, s) && s.pc == Polling(i) && AtWorker(s, i) && CanLook(s.links[i], look)
    ensures SystemInv(scripts, NextVisit(s, i, look, at, broken))
  {
    if i !in s.sched.active {
      PcKeeps(scripts, s, Polling(i + 1));
    } else if look.TakeHead? {
      TakenVisitKeeps(scripts, s, i, at, broken);
    } else {
      NoNews(s, i, look, at, broken);
      var (w, received) := Receive(s.sched.workers[i], ReadOf(s.links[i], look));
      if received.Broke? {
        FailedVisitKeeps(scripts, s, i, w, received.code, Polling(i + 1));
      } else {
        PcKeeps(scripts, s, Polling(i + 1));
      }
    }
  }

  lemma ReadsMatch(s: State, i: nat, read: Read)
    requires i < |s.workers| && i in s.active && s.workers[i] == Worker(Busy, Some(s.active[i]))
    requires read.Got? ==> read.message.requestId in {None, Some(s.active[i])}
    ensures Receive(s.workers[i], read).1 != Broke(RequestIdMismatch)
  {
  }

  /** A child cannot answer the wrong request: whatever a visit takes from a live worker's queue carries the
      id the worker is running, or none, so `request_id_mismatch` is never raised. */
  lemma MismatchIsUnreachable(scripts: Scripts, s: System, i: nat, look: Look)
    requires SystemInv(scripts, s) && i in s.sched.active && AtWorker(s, i) && CanLook(s.links[i], look)
    ensures Receive(s.sched.workers[i], ReadOf(s.links[i], look)).1 != Broke(RequestIdMismatch)
  {
    BusyOfActive(s.sched, i);
    if look.TakeHead? { HeadOfActive(scripts, s, i); }
    ReadsMatch(s.sched, i, ReadOf(s.links[i], look));
  }
}
