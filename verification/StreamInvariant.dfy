/** The invariant of the request path: where the messages of each request are. */
module StreamInvariant {
  import opened Messages
  import opened WorkerModel
  import opened SchedulerSpec
  import opened SchedulerInvariants
  import opened SchedulerProgress
  import opened StreamSystem

  ghost predicate IsQueued(s: State, id: RequestId) {
    InQueue(s.pending, id) > 0
  }

  ghost predicate IsRunning(s: State, id: RequestId) {
    exists w: nat :: w in s.active && s.active[w] == id
  }

  // Neither waiting nor running any more.
  ghost predicate Ended(s: State, id: RequestId) {
    id in s.submitted && !IsQueued(s, id) && !IsRunning(s, id)
  }

  /* ---- Where the messages of a request are ---- */

  // Downstream of the parent's read: consumed, in the stream queue, in the dispatcher's batch, in the event list.
  function Flow(s: System, id: RequestId): seq<Message> {
    At(s.consumed, id) + At(s.queues, id) + For(id, s.hand) + For(id, s.sched.events)
  }

  // Upstream of it: in the result queue, then held by the child, then not yet produced.
  function Wire(scripts: Scripts, link: Link, id: RequestId): seq<Message> {
    For(id, link.results) + Rest(scripts, link, id)
  }

  function Rest(scripts: Scripts, link: Link, id: RequestId): seq<Message> {
    if link.control != [] && link.control[|link.control| - 1] == id then scripts(id)
    else if link.child.Working? && link.child.id == id then link.child.held + link.child.todo
    else []
  }

  ghost predicate Suffix(a: seq<Message>, b: seq<Message>) {
    |a| <= |b| && a == b[|b| - |a|..]
  }

  // What may have gone downstream for a request that has ended: a part of the script from its start,
  // or such a part, not the whole, and then a failure.
  ghost predicate Faithful(flow: seq<Message>, script: seq<Message>) {
    || flow <= script
    || (flow != [] && flow[..|flow| - 1] < script
        && (flow[|flow| - 1].kind.Error? || flow[|flow| - 1].kind.Cancelled?))
  }

  ghost predicate NoEnd(ms: seq<Message>) {
    forall k :: 0 <= k < |ms| ==> !ms[k].kind.StreamEnd?
  }

  /* ---- The channel between the parent and one child ---- */

  // An id-less message is the child's last word.
  ghost predicate AnonymousLast(link: Link) {
    forall k :: 0 <= k < |link.results| && link.results[k].requestId.None? ==>
      k == |link.results| - 1 && !link.alive && link.results[k].kind.Error?
  }

  ghost predicate QuietLink(link: Link) {
    && (link.alive ==> link.control == [] && link.results == [] && link.child.Waiting?)
    && (forall k :: 0 <= k < |link.results| ==> link.results[k].requestId.None?)
  }

  ghost predicate BusyLink(link: Link, id: RequestId) {
    && (link.alive ==>
          || (link.control == [id] && link.results == [] && link.child.Waiting?)
          || (link.control == [] && (link.child.Working? ==> link.child.id == id && link.child.held + link.child.todo != [])))
    && (forall k :: 0 <= k < |link.results| ==> link.results[k].requestId in {None, Some(id)})
  }

  ghost predicate LinkOk(worker: Worker, link: Link) {
    && (link.child.Working? ==> |link.child.held| <= 1)
    && (worker.state.Ready? ==> AnonymousLast(link) && QuietLink(link))
    && (worker.state.Busy? && worker.activeId.Some? ==> AnonymousLast(link) && BusyLink(link, worker.activeId.value))
  }

  /* ---- The invariant ---- */

  ghost predicate Control(s: System) {
    && |s.links| == |s.sched.workers|
    && (s.pc.AtTop? || s.pc.Polling? ==> s.hand == [])
    && (s.pc.Polling? ==> s.pc.next <= |s.links|)
    && (s.pc.Checking? || s.pc.Putting? || s.pc.Draining? ==> s.hand != [] && s.hand[0].requestId.Some?)
    && (s.pc.Putting? ==> s.hand[0].requestId.value !in s.lost)
    && (s.pc.Draining? ==> s.hand[0].requestId.value in s.lost)
  }

  ghost predicate Scripted(scripts: Scripts, s: System) {
    && (forall id :: id in s.sched.submitted ==> ScriptOk(scripts(id), id, true) || ScriptOk(scripts(id), id, false))
    && (forall id :: id in s.streams ==> id in s.sched.submitted && ScriptOk(scripts(id), id, true))
  }

  ghost predicate LinksOk(s: System) {
    forall w :: 0 <= w < |s.links| && w < |s.sched.workers| ==> LinkOk(s.sched.workers[w], s.links[w])
  }

  // A request that has not reached a worker has no messages.
  ghost predicate UntouchedOk(s: System) {
    forall id :: id !in s.sched.submitted || IsQueued(s.sched, id) ==> Flow(s, id) == [] && id !in s.lost
  }

  // What is upstream of a running request is an end of its script; together with what is downstream, all of it.
  ghost predicate RunOk(scripts: Scripts, flow: seq<Message>, lost: bool, link: Link, id: RequestId) {
    var wire := Wire(scripts, link, id);
    wire != [] && Suffix(wire, scripts(id)) && (!lost ==> flow + wire == scripts(id))
  }

  ghost predicate RunOkAt(scripts: Scripts, s: System, w: nat)
    requires w in s.sched.active && w < |s.links|
  {
    var id := s.sched.active[w];
    RunOk(scripts, Flow(s, id), id in s.lost, s.links[w], id)
  }

  ghost predicate RunningOk(scripts: Scripts, s: System) {
    forall w: nat :: w in s.sched.active && w < |s.links| ==> RunOkAt(scripts, s, w)
  }

  ghost predicate EndedOk(scripts: Scripts, s: System) {
    forall id :: Ended(s.sched, id) && id !in s.lost ==> Faithful(Flow(s, id), scripts(id))
  }

  ghost predicate LostOk(s: System) {
    forall id :: id in s.lost ==>
      NoEnd(At(s.consumed, id)) && NoEnd(At(s.queues, id)) && (id in s.streams ==> s.stopped)
  }

  ghost predicate SystemInv(scripts: Scripts, s: System) {
    && Core(s.sched) && Control(s) && Scripted(scripts, s)
    && LinksOk(s) && UntouchedOk(s) && RunningOk(scripts, s) && EndedOk(scripts, s) && LostOk(s)
  }

  ghost predicate SystemInit(s: System) {
    && Init(s.sched)
    && |s.links| == |s.sched.workers|
    && (forall w :: 0 <= w < |s.links| ==> s.links[w] == Link([], [], Waiting, true))
    && s.pc == AtTop && s.hand == [] && s.futures == {} && s.resolved == map[] && s.streams == {}
    && s.queues == map[] && s.consumed == map[] && s.lost == {} && s.abandoned == {} && !s.stopped
  }

  lemma InitIsOk(scripts: Scripts, s: System)
    requires SystemInit(s)
    ensures SystemInv(scripts, s)
  {
    InitInv(s.sched);
  }

  /* ---- Facts about scripts ---- */

  // The end of a stream is the last message of its script and no other.
  lemma EndIsLast(script: seq<Message>, id: RequestId, k: nat)
    requires (ScriptOk(script, id, true) || ScriptOk(script, id, false)) && k < |script| && script[k].kind.StreamEnd?
    ensures k == |script| - 1
  {
  }

  lemma ProperPrefixHasNoEnd(flow: seq<Message>, script: seq<Message>, id: RequestId)
    requires ScriptOk(script, id, true) || ScriptOk(script, id, false)
    requires flow < script
    ensures NoEnd(flow)
  {
  }

  lemma {:induction false} ForAll(id: RequestId, ms: seq<Message>)
    requires forall k :: 0 <= k < |ms| ==> ms[k].requestId == Some(id)
    ensures For(id, ms) == ms
  {
    if ms != [] { ForAll(id, ms[1..]); }
  }

  lemma {:induction false} ForNone(id: RequestId, ms: seq<Message>)
    requires forall k :: 0 <= k < |ms| ==> ms[k].requestId != Some(id)
    ensures For(id, ms) == []
  {
    if ms != [] { ForNone(id, ms[1..]); }
  }

  lemma ForAppend(id: RequestId, ms: seq<Message>, m: Message)
    ensures For(id, ms + [m]) == For(id, ms) + if m.requestId == Some(id) then [m] else []
  {
    ForConcat(id, ms, [m]);
    assert [m][1..] == [];
  }

  /* ---- Internal moves of the scheduler ---- */

  lemma {:induction false} SomeRunning(ws: seq<Worker>, id: RequestId)
    requires Running(ws, id) > 0
    ensures exists w: nat :: w < |ws| && RunningId(ws[w]) == Some(id)
  {
    if RunningId(ws[0]) != Some(id) {
      SomeRunning(ws[1..], id);
      var w: nat :| w < |ws[1..]| && RunningId(ws[1..][w]) == Some(id);
      assert RunningId(ws[w + 1]) == Some(id);
    }
  }

  lemma RunningIff(s: State, id: RequestId)
    requires Shape(s)
    ensures IsRunning(s, id) <==> Running(s.workers, id) > 0
  {
    if Running(s.workers, id) > 0 {
      SomeRunning(s.workers, id);
      var w: nat :| w < |s.workers| && RunningId(s.workers[w]) == Some(id);
      assert w in s.active && s.active[w] == id;
    }
    if IsRunning(s, id) {
      var w: nat :| w in s.active && s.active[w] == id;
      OneRunning(s.workers, w, id);
    }
  }

  // A running request runs on one worker and is not queued.
  lemma RunsOnce(s: State, i: nat, j: nat)
    requires Core(s) && i in s.active && j in s.active && s.active[i] == s.active[j]
    ensures i == j && !IsQueued(s, s.active[i]) && s.active[i] in s.submitted
  {
    var id := s.active[i];
    assert Accounted(s, id) <= 1;
    OneRunning(s.workers, i, id);
    if i != j { TwoRunning(s.workers, i, j, id); }
  }

  // What internal work may add to the events of `id`: nothing, or one failure that ends it.
  ghost predicate EventsOk(s: State, r: State, id: RequestId)
    requires s.events <= r.events
  {
    var more := For(id, r.events[|s.events|..]);
    || more == []
    || (|more| == 1 && (more[0].kind.Error? || more[0].kind.Cancelled?)
        && (IsQueued(s, id) || IsRunning(s, id)) && Ended(r, id))
  }

  ghost predicate Moves(s: State, r: State) {
    && r.submitted == s.submitted && |r.workers| == |s.workers| && s.events <= r.events
    && (forall id :: IsQueued(r, id) ==> IsQueued(s, id))
    && (forall w: nat :: w < |s.workers| ==> WorkerMoves(s, r, w))
    && (forall id :: EventsOk(s, r, id))
  }

  ghost predicate WorkerMoves(s: State, r: State, w: nat)
    requires w < |s.workers| && |r.workers| == |s.workers|
  {
    && (w in r.active ==>
          || (w in s.active && s.active[w] == r.active[w])
          || (IsQueued(s, r.active[w]) && s.workers[w].state.Ready?))
    && (r.workers[w].state.Ready? ==> s.workers[w].state.Ready?)
  }

  lemma {:induction false} ReportedPlus(ms: seq<Message>, more: seq<Message>, id: RequestId)
    requires forall k :: 0 <= k < |more| ==> Terminal(more[k].kind)
    ensures Reported(ms + more, id) == Reported(ms, id) + |For(id, more)|
    decreases |more|
  {
    if more == [] {
      assert ms + more == ms;
    } else {
      var init, last := more[..|more| - 1], more[|more| - 1];
      assert more == init + [last] && ms + more == (ms + init) + [last];
      ReportedAppend(ms + init, last, id);
      ForAppend(id, init, last);
      ReportedPlus(ms, init, id);
    }
  }

  lemma {:induction false} ForMember(id: RequestId, ms: seq<Message>, k: nat)
    requires k < |For(id, ms)|
    ensures For(id, ms)[k] in ms && For(id, ms)[k].requestId == Some(id)
  {
    if ms[0].requestId == Some(id) {
      if k > 0 { ForMember(id, ms[1..], k - 1); }
    } else {
      ForMember(id, ms[1..], k);
    }
  }

  lemma {:induction false} OccurrencesPrefix(a: seq<RequestId>, b: seq<RequestId>, id: RequestId)
    requires a <= b
    ensures Occurrences(a, id) <= Occurrences(b, id)
    decreases |b|
  {
    if |a| < |b| {
      OccurrencesPrefix(a, b[..|b| - 1], id);
    } else {
      assert a == b;
    }
  }

  lemma ProgressEvents(s: State, r: State, id: RequestId)
    requires Core(s) && Core(r) && Progress(s, r)
    ensures EventsOk(s, r, id)
  {
    var more := r.events[|s.events|..];
    ReportedPlus(s.log.reports, more, id);
    RunningIff(s, id);
    RunningIff(r, id);
    OccurrencesPrefix(s.log.dropped, r.log.dropped, id);
    assert Accounted(s, id) == if id in s.submitted then 1 else 0;
    assert Accounted(r, id) == if id in s.submitted then 1 else 0;
    if For(id, more) != [] { ForMember(id, more, 0); }
  }

  lemma ProgressMoves(s: State, r: State)
    requires Core(s) && Core(r) && Progress(s, r)
    ensures Moves(s, r)
  {
    forall id | IsQueued(r, id) ensures IsQueued(s, id) {
      InQueueSuffix(s.pending, |s.pending| - |r.pending|, id);
    }
    forall id ensures EventsOk(s, r, id) { ProgressEvents(s, r, id); }
  }

  lemma MovesTrans(s: State, t: State, r: State)
    requires Moves(s, t) && Moves(t, r) && Shape(t) && Shape(r)
    ensures Moves(s, r)
  {
    forall w: nat | w < |s.workers| ensures WorkerMoves(s, r, w) {
      assert WorkerMoves(s, t, w) && WorkerMoves(t, r, w);
    }
    forall id ensures EventsOk(s, r, id) {
      EventsTrans(s, t, r, id);
    }
  }

  // A request is where it was, or further on.
  lemma Onward(s: State, r: State, id: RequestId)
    requires Moves(s, r) && Shape(r)
    ensures IsRunning(r, id) ==> IsRunning(s, id) || IsQueued(s, id)
    ensures Ended(s, id) ==> Ended(r, id)
  {
    if IsRunning(r, id) {
      var w: nat :| w in r.active && r.active[w] == id;
      assert WorkerMoves(s, r, w);
    }
  }

  lemma EventsTrans(s: State, t: State, r: State, id: RequestId)
    requires Moves(s, t) && Moves(t, r) && Shape(t) && Shape(r)
    ensures EventsOk(s, r, id)
  {
    assert r.events[|s.events|..] == t.events[|s.events|..] + r.events[|t.events|..];
    ForConcat(id, t.events[|s.events|..], r.events[|t.events|..]);
    assert EventsOk(s, t, id) && EventsOk(t, r, id);
    Onward(s, t, id);
    Onward(t, r, id);
  }
}
