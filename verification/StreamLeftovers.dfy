/** Which requests leave the runtime's tables early, and which futures stay in them too long. */
module StreamLeftovers {
  import opened Messages
  import opened WorkerModel
  import opened SchedulerSpec
  import opened SchedulerInvariants
  import opened StreamSystem
  import opened StreamInvariant
  import opened StreamScheduling
  import opened StreamTheorems
  import opened StreamTables
  import opened StreamDelivery
  import opened StreamTraces
  import StreamVisits

  /* ---- Streams given up ---- */

  predicate GivesUp(s: System, step: Step, id: RequestId) {
    step.RouteGiveUp? && s.hand != [] && s.hand[0].requestId == Some(id)
  }

  lemma VisitAbandons(s: System, i: nat, look: Look, at: real, broken: set<nat>)
    requires AtWorker(s, i) && CanLook(s.links[i], look)
    ensures NextVisit(s, i, look, at, broken).abandoned == s.abandoned
  {
  }

  lemma AbandonedBy(bounds: Bounds, scripts: Scripts, s: System, step: Step, id: RequestId)
    requires Enabled(bounds, scripts, s, step)
    ensures id in Next(bounds, scripts, s, step).abandoned <==> id in s.abandoned || GivesUp(s, step, id)
  {
    if step.Visit? { VisitAbandons(s, s.pc.next, step.look, step.at, step.broken); }
  }

  // Step `k` of the run, taken in `t`, gives up the stream of `id`.
  ghost predicate GivenUpAt(bounds: Bounds, scripts: Scripts, s: System, steps: seq<Step>, k: nat, t: System, id: RequestId) {
    k < |steps| && IsRun(bounds, scripts, s, steps[..k], t) && GivesUp(t, steps[k], id)
  }

  ghost predicate GivenUp(bounds: Bounds, scripts: Scripts, s: System, steps: seq<Step>, id: RequestId) {
    exists k: nat, t: System :: GivenUpAt(bounds, scripts, s, steps, k, t, id)
  }

  lemma GivenUpFirstOrLater(bounds: Bounds, scripts: Scripts, s: System, steps: seq<Step>, id: RequestId)
    requires steps != [] && Enabled(bounds, scripts, s, steps[0])
    ensures GivenUp(bounds, scripts, s, steps, id)
       <==> GivesUp(s, steps[0], id) || GivenUp(bounds, scripts, Next(bounds, scripts, s, steps[0]), steps[1..], id)
  {
    var s1 := Next(bounds, scripts, s, steps[0]);
    if GivesUp(s, steps[0], id) { assert GivenUpAt(bounds, scripts, s, steps, 0, s, id); }
    if k: nat, t: System :| GivenUpAt(bounds, scripts, s1, steps[1..], k, t, id) {
      assert steps[..k + 1][1..] == steps[1..][..k];
      assert GivenUpAt(bounds, scripts, s, steps, k + 1, t, id);
    }
    if k: nat, t: System :| GivenUpAt(bounds, scripts, s, steps, k, t, id) && k > 0 {
      assert steps[..k][1..] == steps[1..][..k - 1];
      assert GivenUpAt(bounds, scripts, s1, steps[1..], k - 1, t, id);
    }
  }

  lemma {:induction false} AbandonedIff(bounds: Bounds, scripts: Scripts, s: System, steps: seq<Step>, r: System, id: RequestId)
    requires IsRun(bounds, scripts, s, steps, r)
    ensures id in r.abandoned <==> id in s.abandoned || GivenUp(bounds, scripts, s, steps, id)
    decreases |steps|
  {
    if steps != [] {
      AbandonedBy(bounds, scripts, s, steps[0], id);
      GivenUpFirstOrLater(bounds, scripts, s, steps, id);
      AbandonedIff(bounds, scripts, Next(bounds, scripts, s, steps[0]), steps[1..], r, id);
    }
  }

  /** In every run that never gives up the stream of `id` for its slow consumer, `id` is in a table while it waits
      or runs, whatever else the runtime discards. */
  lemma LiveInTable(bounds: Bounds, scripts: Scripts, s0: System, steps: seq<Step>, s: System, id: RequestId)
    requires SystemInit(s0) && IsRun(bounds, scripts, s0, steps, s) && !GivenUp(bounds, scripts, s0, steps, id)
    ensures Live(s.sched, id) ==> id in s.futures || id in s.streams
  {
    AbandonedIff(bounds, scripts, s0, steps, s, id);
    TablesAgree(bounds, scripts, s, id);
  }

  /* ---- Futures left behind ---- */

  /** When the last event of a request is routed its future leaves the table exactly when that event is not a
      `stream_end`. */
  lemma EndLeavesFutureIff(bounds: Bounds, scripts: Scripts, s: System, id: RequestId)
    requires Reachable(bounds, scripts, s) && s.pc.Looking? && s.hand != [] && id in s.futures
    requires s.hand[0].requestId == Some(id) && Terminal(s.hand[0].kind)
    ensures id in NextLook(s).futures <==> s.hand[0].kind.StreamEnd?
  {
    TablesAgree(bounds, scripts, s, id);
  }

  // A future whose request has ended and has nothing left to route.
  ghost predicate LeftBehind(s: System, id: RequestId) {
    id in s.futures && Finished(s, id)
  }

  lemma WorkLeaves(s: System, r: System, id: RequestId)
    requires LeftBehind(s, id) && StaysEnded(s.sched, r.sched, id)
    requires r == s.(sched := r.sched, links := r.links, pc := r.pc)
    ensures LeftBehind(r, id) && LeftBehind(Collected(r), id)
  {
    CollectPlaces(r, id);
    ForConcat(id, r.hand, r.sched.events);
  }

  lemma CancelFindsNone(s: State, id: RequestId)
    requires Ended(s, id)
    ensures Cancel(s, id) == (s, CancelRejected(RequestNotFound))
  {
    if IndexOf(s.pending, id) < |s.pending| { CutOne(s.pending, IndexOf(s.pending, id), id); }
  }

  lemma CancelLeaves(bounds: Bounds, scripts: Scripts, s: System, other: RequestId, id: RequestId)
    requires Core(s.sched) && LeftBehind(s, id) && LockFree(s)
    ensures LeftBehind(Next(bounds, scripts, s, CancelRequest(other)), id)
  {
    if other == id { CancelFindsNone(s.sched, id); } else { CancelStays(s.sched, other, id); }
  }

  lemma SubmitLeaves(s: System, request: Request, now: real, broken: set<nat>, asStream: bool, id: RequestId)
    requires LeftBehind(s, id)
    ensures LeftBehind(NextSubmit(s, request, now, broken, asStream), id)
  {
    SubmitStays(s.sched, request, now, broken, id);
  }

  lemma VisitLeaves(scripts: Scripts, s: System, i: nat, look: Look, at: real, broken: set<nat>, id: RequestId)
    requires SystemInv(scripts, s) && s.pc == Polling(i) && AtWorker(s, i) && CanLook(s.links[i], look) && LeftBehind(s, id)
    ensures LeftBehind(NextVisit(s, i, look, at, broken), id)
  {
    VisitStays(scripts, s, i, look, at, broken, id);
    WorkLeaves(s, NextVisit(s, i, look, at, broken), id);
  }

  lemma LookLeaves(s: System, id: RequestId)
    requires LeftBehind(s, id)
    ensures LeftBehind(NextLook(s), id)
  {
  }

  lemma HeadLeaves(s: System, s': System, id: RequestId)
    requires LeftBehind(s, id) && s'.sched == s.sched && s'.futures == s.futures
    requires s'.hand == s.hand || (s.hand != [] && s'.hand == s.hand[1..])
    ensures LeftBehind(s', id)
  {
  }

  lemma StepLeaves(bounds: Bounds, scripts: Scripts, s: System, step: Step, id: RequestId)
    requires SystemInv(scripts, s) && LeftBehind(s, id) && Enabled(bounds, scripts, s, step) && !step.CloseScheduler?
    ensures LeftBehind(Next(bounds, scripts, s, step), id)
  {
    if step.Visit? {
      VisitLeaves(scripts, s, s.pc.next, step.look, step.at, step.broken, id);
    } else {
      OtherLeaves(bounds, scripts, s, step, id);
    }
  }

  lemma OtherLeaves(bounds: Bounds, scripts: Scripts, s: System, step: Step, id: RequestId)
    requires Core(s.sched) && LeftBehind(s, id) && Enabled(bounds, scripts, s, step) && !step.CloseScheduler? && !step.Visit?
    ensures LeftBehind(Next(bounds, scripts, s, step), id)
  {
    if step.SubmitRequest? {
      SubmitLeaves(s, step.request, step.now, step.broken, step.asStream, id);
    } else if step.CancelRequest? {
      CancelLeaves(bounds, scripts, s, step.id, id);
    } else if step.PollBegin? {
      PollBeginLeaves(bounds, scripts, s, step.now, id);
    } else if step.PollEnd? {
      PollEndLeaves(bounds, scripts, s, id);
    } else if step.RouteLook? {
      LookLeaves(s, id);
    } else {
      LocalParts(bounds, scripts, s, step);
      HeadLeaves(s, Next(bounds, scripts, s, step), id);
    }
  }

  lemma PollBeginLeaves(bounds: Bounds, scripts: Scripts, s: System, now: real, id: RequestId)
    requires Core(s.sched) && LeftBehind(s, id) && s.pc.AtTop?
    ensures LeftBehind(Next(bounds, scripts, s, PollBegin(now)), id)
  {
    var r := Expire(s.sched, now);
    ExpireStays(s.sched, now, id);
    WorkLeaves(s, s.(sched := r, links := Relink(s.links, s.sched.active, r.active), pc := Polling(0)), id);
  }

  lemma PollEndLeaves(bounds: Bounds, scripts: Scripts, s: System, id: RequestId)
    requires Core(s.sched) && LeftBehind(s, id) && s.pc == Polling(|s.links|)
    ensures LeftBehind(Next(bounds, scripts, s, PollEnd), id)
  {
    FailPendingStays(s.sched, id);
    WorkLeaves(s, s.(sched := FailPendingWithoutHealthy(s.sched)), id);
  }

  /** Such a future stays in the table, unresolvable and uncancellable, in every run until the runtime closes. */
  lemma {:induction false} LeftUntilClose(bounds: Bounds, scripts: Scripts, s: System, steps: seq<Step>, r: System, id: RequestId)
    requires SystemInv(scripts, s) && LeftBehind(s, id) && IsRun(bounds, scripts, s, steps, r)
    requires forall k :: 0 <= k < |steps| ==> !steps[k].CloseScheduler?
    ensures LeftBehind(r, id)
    decreases |steps|
  {
    if steps != [] {
      StepKeepsInv(bounds, scripts, s, steps[0]);
      StepLeaves(bounds, scripts, s, steps[0], id);
      LeftUntilClose(bounds, scripts, Next(bounds, scripts, s, steps[0]), steps[1..], r, id);
    }
  }

  /** In every reachable state a future is left behind only by a request that was dropped, or one whose script ends in a
      `stream_end`. */
  lemma OnlyStreamsAreLeft(bounds: Bounds, scripts: Scripts, s: System, id: RequestId)
    requires Reachable(bounds, scripts, s) && LeftBehind(s, id)
    ensures id in s.sched.log.dropped || (scripts(id) != [] && scripts(id)[|scripts(id)| - 1].kind.StreamEnd?)
  {
    TablesAgree(bounds, scripts, s, id);
    if HasEnd(s.hand, id) { EndIsThere(s.hand, id); }
    if HasEnd(s.sched.events, id) { EndIsThere(s.sched.events, id); }
    if HasStreamEnd(scripts(id)) { EndsInStreamEnd(bounds, scripts, s, id); }
  }

  lemma EndsInStreamEnd(bounds: Bounds, scripts: Scripts, s: System, id: RequestId)
    requires Reachable(bounds, scripts, s) && id in s.sched.submitted && HasStreamEnd(scripts(id))
    ensures scripts(id) != [] && scripts(id)[|scripts(id)| - 1].kind.StreamEnd?
  {
    ReachableInv(bounds, scripts, s);
    var k :| 0 <= k < |scripts(id)| && scripts(id)[k].kind.StreamEnd?;
    EndIsLast(scripts(id), id, k);
  }

  lemma EndIsThere(ms: seq<Message>, id: RequestId)
    requires HasEnd(ms, id)
    ensures For(id, ms) != []
  {
    var k :| 0 <= k < |ms| && ms[k].requestId == Some(id) && Terminal(ms[k].kind);
    StreamVisits.ForHas(id, ms, k);
  }

  /* ---- After a close ---- */

  // A closed runtime has nothing in its tables.
  ghost predicate ClosedOk(s: System) {
    s.sched.closed ==> s.stopped && s.futures == {} && s.streams == {}
  }

  // A step that closes nothing and enters nothing.
  ghost predicate EntersNone(s: System, r: System) {
    r.sched.closed == s.sched.closed && r.stopped == s.stopped && r.futures <= s.futures && r.streams <= s.streams
  }

  lemma VisitEntersNone(s: System, i: nat, look: Look, at: real, broken: set<nat>)
    requires AtWorker(s, i) && CanLook(s.links[i], look)
    ensures EntersNone(s, NextVisit(s, i, look, at, broken))
  {
  }

  lemma CancelEntersNone(s: System, id: RequestId)
    ensures EntersNone(s, NextCancel(s, id))
  {
  }

  lemma SubmitLeavesOpen(s: System, request: Request, now: real, broken: set<nat>, asStream: bool)
    requires !s.sched.closed
    ensures !NextSubmit(s, request, now, broken, asStream).sched.closed
  {
    SubmitCases(s.sched, request, now, broken);
  }

  lemma PollEntersNone(s: System, now: real)
    ensures EntersNone(s, NextPollBegin(s, now)) && EntersNone(s, NextPollEnd(s))
  {
  }

  lemma StepClosed(bounds: Bounds, scripts: Scripts, s: System, step: Step)
    requires ClosedOk(s) && Enabled(bounds, scripts, s, step)
    ensures ClosedOk(Next(bounds, scripts, s, step))
  {
    if step.SubmitRequest? {
      SubmitLeavesOpen(s, step.request, step.now, step.broken, step.asStream);
    } else if step.Visit? {
      VisitEntersNone(s, s.pc.next, step.look, step.at, step.broken);
    } else if step.CancelRequest? {
      CancelEntersNone(s, step.id);
    } else if step.PollBegin? || step.PollEnd? {
      PollEntersNone(s, if step.PollBegin? then step.now else 0.0);
    } else if !OfScheduler(step) {
      LocalParts(bounds, scripts, s, step);
      LocalClosed(bounds, scripts, s, step);
    }
  }

  lemma LocalClosed(bounds: Bounds, scripts: Scripts, s: System, step: Step)
    requires Enabled(bounds, scripts, s, step) && !OfScheduler(step)
    ensures var r := Next(bounds, scripts, s, step);
      r.sched == s.sched && (s.stopped ==> r.stopped) && r.futures <= s.futures && r.streams <= s.streams
  {
    if OfChild(step) {
      ChildParts(bounds, scripts, s, step);
    } else if step.RouteLook? {
      LookParts(s, NextLook(s));
      LookTakes(s);
    } else if step.RouteCheck? {
      CheckParts(s, NextCheck(s));
    }
  }

  lemma LookTakes(s: System)
    ensures NextLook(s).futures <= s.futures
  {
  }

  lemma {:induction false} RunClosed(bounds: Bounds, scripts: Scripts, s: System, steps: seq<Step>, r: System)
    requires ClosedOk(s) && IsRun(bounds, scripts, s, steps, r)
    ensures ClosedOk(r)
    decreases |steps|
  {
    if steps != [] {
      StepClosed(bounds, scripts, s, steps[0]);
      RunClosed(bounds, scripts, Next(bounds, scripts, s, steps[0]), steps[1..], r);
    }
  }

  /** In every reachable state in which the scheduler is closed both tables are empty, and so they stay. */
  lemma ClosedIsEmpty(bounds: Bounds, scripts: Scripts, s: System)
    requires Reachable(bounds, scripts, s) && s.sched.closed
    ensures s.futures == {} && s.streams == {}
  {
    var s0: System, steps: seq<Step> :| SystemInit(s0) && IsRun(bounds, scripts, s0, steps, s);
    RunClosed(bounds, scripts, s0, steps, s);
  }

  /* ---- A run that leaves one behind ---- */

  function End(): Message {
    Message(StreamEnd, FromWorker(0), Some(1), Plain, 0)
  }

  // Every stream is empty: its script is its end.
  function EmptyStreams(): Scripts {
    (id: RequestId) => [Message(StreamEnd, FromWorker(0), Some(id), Plain, 0)]
  }

  // One worker, no timeouts, nothing submitted.
  function OneWorker(): System {
    System(State(Config(1, None, None, None), [Worker(WorkerState.Ready, None)], [], map[], map[], {}, [], false,
                 Log([], [], [], [], [], [])),
           [Link([], [], Waiting, true)], AtTop, [], {}, map[], {}, map[], map[], {}, {}, false)
  }

  // The request was submitted through `submit`, and its child is at `link`.
  function Underway(link: Link): System {
    OneWorker().(
      sched := State(Config(1, None, None, None), [Worker(Busy, Some(1))], [], map[0 := 1], map[0 := 0.0], {1}, [], false,
                     Log([1], [], [1], [], [], [])),
      links := [link], futures := {1})
  }

  // Its end was read.
  function Answered(events: seq<Message>): System {
    OneWorker().(
      sched := State(Config(1, None, None, None), [Worker(WorkerState.Ready, None)], [], map[], map[], {1}, events, false,
                     Log([1], [], [1], [], [End()], [])),
      futures := {1})
  }

  lemma SubmitIs(s: System, t: System)
    requires s == OneWorker() && t == Underway(Link([1], [], Waiting, true))
    ensures NextSubmit(s, Request(1, true, 0), 0.0, {}, false) == t
  {
    assert FirstReady(s.sched.workers) == 0;
    var r := Submit(s.sched, Request(1, true, 0), 0.0, {}).0;
    assert r.workers == t.sched.workers && r.active == map[0 := 1] && r.started == map[0 := 0.0];
    assert r == t.sched;
    assert RelinkOne(s.links[0], 0, s.sched.active, r.active) == t.links[0];
    assert Relink(s.links, s.sched.active, r.active) == t.links;
  }

  // The child's work, up to the end on the result queue.
  lemma ToResultQueue(bounds: Bounds) returns (steps: seq<Step>)
    requires bounds.ipc > 0
    ensures IsRun(bounds, EmptyStreams(), Underway(Link([1], [], Waiting, true)), steps, Underway(Link([], [End()], Waiting, true)))
  {
    var scripts := EmptyStreams();
    var sent := Underway(Link([1], [], Waiting, true));
    var taken := Underway(Link([], [], Working(1, [], [End()]), true));
    var held := Underway(Link([], [], Working(1, [End()], []), true));
    var put := Underway(Link([], [End()], Waiting, true));
    LinkReplaced(sent.links[0], taken.links[0]);
    LinkReplaced(taken.links[0], held.links[0]);
    LinkReplaced(held.links[0], put.links[0]);
    assert [1][1..] == [] && [End()][1..] == [] && [] + [End()] == [End()];
    assert scripts(1) == [End()];
    OneStep(bounds, scripts, sent, ChildTake(0), taken);
    OneStep(bounds, scripts, taken, ChildYield(0), held);
    OneStep(bounds, scripts, held, ChildPut(0), put);
    steps := ThreeRuns(bounds, scripts, sent, [ChildTake(0)], taken, [ChildYield(0)], held, [ChildPut(0)], put);
  }

  lemma LinkReplaced(link: Link, next: Link)
    ensures SetLink(Underway(link), 0, next) == Underway(next)
  {
    assert [link][0 := next] == [next];
  }

  lemma ThreeRuns(bounds: Bounds, scripts: Scripts, s: System, xs: seq<Step>, t: System, ys: seq<Step>, u: System,
                  zs: seq<Step>, v: System) returns (steps: seq<Step>)
    requires IsRun(bounds, scripts, s, xs, t) && IsRun(bounds, scripts, t, ys, u) && IsRun(bounds, scripts, u, zs, v)
    ensures IsRun(bounds, scripts, s, steps, v)
  {
    RunsOn(bounds, scripts, t, ys, u, zs, v);
    RunsOn(bounds, scripts, s, xs, t, ys + zs, v);
    steps := xs + (ys + zs);
  }

  lemma Admission(bounds: Bounds) returns (steps: seq<Step>)
    ensures IsRun(bounds, EmptyStreams(), OneWorker(), steps, Underway(Link([1], [], Waiting, true)))
  {
    var submit := SubmitRequest(Request(1, true, 0), 0.0, {}, false);
    SubmitIs(OneWorker(), Underway(Link([1], [], Waiting, true)));
    OneStep(bounds, EmptyStreams(), OneWorker(), submit, Underway(Link([1], [], Waiting, true)));
    steps := [submit];
  }

  lemma ReadEndIs(s: State)
    requires s == Underway(Link([], [], Waiting, true)).sched
    ensures PollWorker(s, 0, Reply(Got(End()), 0.0, {})) == (Answered([End()]).sched, false)
  {
    var w := Worker(WorkerState.Ready, None);
    assert Receive(s.workers[0], Got(End())) == (w, Delivered(End()));
    assert Finish(s, 0, w, End()) == Answered([End()]).sched;
    assert DispatchPending(Answered([End()]).sched, 0.0, {}) == (Answered([End()]).sched, false);
  }

  // One poll, which hands the end to the dispatcher.
  lemma ToDispatcher(bounds: Bounds) returns (steps: seq<Step>)
    ensures IsRun(bounds, EmptyStreams(), Underway(Link([], [End()], Waiting, true)), steps,
                  Answered([]).(hand := [End()], pc := Looking))
  {
    var scripts, s := EmptyStreams(), Underway(Link([], [End()], Waiting, true));
    var polling := s.(pc := Polling(0));
    var visited := Answered([End()]).(pc := Polling(1));
    var batch := Answered([]).(hand := [End()], pc := Looking);
    assert Expire(s.sched, 0.0) == s.sched;
    NoRelink(s.links, s.sched.active);
    OneStep(bounds, scripts, s, PollBegin(0.0), polling);
    ReadEndIs(s.sched);
    assert [End()][1..] == [];
    assert AfterLook(s.links, 0, TakeHead) == OneWorker().links;
    NoRelink(OneWorker().links, map[]);
    assert Next(bounds, scripts, polling, Visit(TakeHead, 0.0, {})).links == OneWorker().links;
    OneStep(bounds, scripts, polling, Visit(TakeHead, 0.0, {}), visited);
    assert Healthy(visited.sched.workers[0]);
    OneStep(bounds, scripts, visited, PollEnd, batch);
    steps := ThreeRuns(bounds, scripts, s, [PollBegin(0.0)], polling, [Visit(TakeHead, 0.0, {})], visited, [PollEnd], batch);
  }

  /** A run that leaves a future behind: a stream request submitted through `submit`, whose only message is its end. */
  lemma SubmittedStreamIsLeft(bounds: Bounds) returns (steps: seq<Step>, r: System)
    requires bounds.ipc > 0
    ensures SystemInit(OneWorker()) && IsRun(bounds, EmptyStreams(), OneWorker(), steps, r)
    ensures LeftBehind(r, 1) && r.futures == {1} && r.resolved == map[]
  {
    var batch := Answered([]).(hand := [End()], pc := Looking);
    r := Answered([]).(pc := Looking, lost := {1});
    var first := Admission(bounds);
    var work := ToResultQueue(bounds);
    var poll := ToDispatcher(bounds);
    OneStep(bounds, EmptyStreams(), batch, RouteLook, r);
    steps := ThreeRuns(bounds, EmptyStreams(), OneWorker(), first, Underway(Link([1], [], Waiting, true)), work,
                       Underway(Link([], [End()], Waiting, true)), poll, batch);
    RunsOn(bounds, EmptyStreams(), OneWorker(), steps, batch, [RouteLook], r);
    steps := steps + [RouteLook];
  }
}
