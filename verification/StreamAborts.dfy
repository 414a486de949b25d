/** A `close` that raises: what the runtime does after it, and that consumers can still rely on `stream_end`. */
module StreamAborts {
  import opened Messages
  import opened WorkerModel
  import opened SchedulerSpec
  import opened StreamSystem
  import opened StreamInvariant
  import opened StreamTheorems
  import opened StreamRouting

  // The channels after it.  A worker that was told to stop is gone; of the one that could not be told only its end of
  // the channel is left; the workers after that one are as they were.
  function CutLinks(links: seq<Link>, before: seq<Worker>, after: seq<Worker>, broken: set<nat>): (r: seq<Link>)
    ensures |r| == |links|
  {
    seq(|links|, i requires 0 <= i < |links| =>
      if i >= |before| || i >= |after| || after[i] == before[i] then links[i]
      else if ShutdownRaises(before[i], i !in broken) then links[i].(control := [], results := [])
      else DEAD_LINK)
  }

  // The second part of the runtime's `close` may raise, with pipes of the workers in `broken` closed.
  predicate CanAbort(s: System, broken: set<nat>) {
    LockFree(s) && s.stopped && CloseOrRaise(s.sched, broken).1
  }

  // The tables stay as they are.
  function Aborted(s: System, broken: set<nat>): System {
    var r := CloseOrRaise(s.sched, broken).0;
    s.(sched := r, links := CutLinks(s.links, s.sched.workers, r.workers, broken))
  }

  // `cancel` finds a request listed for a worker that is not running it any more: it raises and changes nothing.
  predicate CancelRaises(s: State, id: RequestId) {
    var i := HolderFrom(s, 0, id);
    IndexOf(s.pending, id) == |s.pending| && i < |s.workers| && !s.workers[i].state.Busy?
  }

  function NextAfter(bounds: Bounds, scripts: Scripts, s: System, step: Step): System
    requires Enabled(bounds, scripts, s, step)
  {
    if step.CancelRequest? && CancelRaises(s.sched, step.id) then s else Next(bounds, scripts, s, step)
  }

  ghost predicate IsRunAfter(bounds: Bounds, scripts: Scripts, s: System, steps: seq<Step>, r: System)
    decreases |steps|
  {
    if steps == [] then r == s
    else Enabled(bounds, scripts, s, steps[0]) && IsRunAfter(bounds, scripts, NextAfter(bounds, scripts, s, steps[0]), steps[1..], r)
  }

  /* ---- What is left of the invariant ---- */

  // What is or was in the stream queue.
  function Seen(s: System, id: RequestId): seq<Message> {
    At(s.consumed, id) + At(s.queues, id)
  }

  // A `stream_end` comes last, and after the rest of the script.
  ghost predicate Whole(ms: seq<Message>, script: seq<Message>) {
    NoEnd(ms) || (ms == script && NoEnd(ms[..|ms| - 1]))
  }

  // The dispatcher works on a message for a stream, which has not ended.
  ghost predicate PutOk(scripts: Scripts, s: System) {
    && s.hand != [] && s.hand[0].requestId.Some?
    && NoEnd(Seen(s, HeadId(s)))
    && (s.pc.Putting? ==> Whole(Seen(s, HeadId(s)) + [s.hand[0]], scripts(HeadId(s))))
  }

  ghost predicate QueuesOk(scripts: Scripts, s: System) {
    && s.stopped
    && (forall id :: Whole(Seen(s, id), scripts(id)))
    && (s.pc.Putting? || s.pc.Draining? ==> PutOk(scripts, s))
  }

  lemma PassedIsWhole(passed: seq<Message>, rest: seq<Message>, flow: seq<Message>, script: seq<Message>, id: RequestId)
    requires flow == passed + rest && Faithful(flow, script) && (ScriptOk(script, id, true) || ScriptOk(script, id, false))
    ensures Whole(passed, script)
  {
    FaithfulPrefix(passed, rest, script);
    if !NoEnd(passed) {
      var k :| 0 <= k < |passed| && passed[k].kind.StreamEnd?;
      EndedPrefix(passed, script, id, k);
      ProperPrefixHasNoEnd(passed[..|passed| - 1], script, id);
    }
  }

  lemma SeenIsWhole(scripts: Scripts, s: System, id: RequestId)
    requires SystemInv(scripts, s)
    ensures Whole(Seen(s, id), scripts(id))
  {
    if id in s.lost {
      assert NoEnd(Seen(s, id));
    } else if Flow(s, id) != [] {
      FlowShape(scripts, s, id);
      PassedIsWhole(Seen(s, id), For(id, s.hand) + For(id, s.sched.events), Flow(s, id), scripts(id), id);
    }
  }

  lemma PuttingIsWhole(scripts: Scripts, s: System)
    requires SystemInv(scripts, s) && s.pc.Putting?
    ensures s.hand != [] && s.hand[0].requestId.Some? && Whole(Seen(s, HeadId(s)) + [s.hand[0]], scripts(HeadId(s)))
  {
    var id := HeadId(s);
    FlowShape(scripts, s, id);
    PassedIsWhole(Seen(s, id) + [s.hand[0]], For(id, s.hand[1..]) + For(id, s.sched.events), Flow(s, id), scripts(id), id);
  }

  lemma WorkedOnHasNoEnd(scripts: Scripts, s: System)
    requires SystemInv(scripts, s) && (s.pc.Putting? || s.pc.Draining?)
    ensures s.hand != [] && s.hand[0].requestId.Some? && NoEnd(Seen(s, HeadId(s)))
  {
    if s.pc.Putting? { NoEndYet(scripts, s); }
  }

  lemma StoppedQueuesOk(scripts: Scripts, s: System)
    requires SystemInv(scripts, s) && s.stopped
    ensures QueuesOk(scripts, s)
  {
    forall id ensures Whole(Seen(s, id), scripts(id)) { SeenIsWhole(scripts, s, id); }
    if s.pc.Putting? || s.pc.Draining? { WorkedOnHasNoEnd(scripts, s); }
    if s.pc.Putting? { PuttingIsWhole(scripts, s); }
  }

  /* ---- The steps keep that ---- */

  // A step that does not touch queues, and leaves the dispatcher alone while it works on a message.
  lemma ElsewhereKeeps(scripts: Scripts, s: System, r: System)
    requires QueuesOk(scripts, s) && r.stopped && r.queues == s.queues && r.consumed == s.consumed
    requires r.pc.Putting? || r.pc.Draining? ==>
      r.hand == s.hand && (r.pc == s.pc || (s.pc.Putting? && r.pc.Draining?))
    ensures QueuesOk(scripts, r)
  {
    forall id ensures Seen(r, id) == Seen(s, id) {}
  }

  lemma ConsumeKeeps(scripts: Scripts, s: System, id: RequestId)
    requires QueuesOk(scripts, s) && At(s.queues, id) != []
    ensures QueuesOk(scripts, NextConsume(s, id))
  {
    var r := NextConsume(s, id);
    forall x ensures Seen(r, x) == Seen(s, x) {
      assert At(s.queues, id) == [At(s.queues, id)[0]] + At(s.queues, id)[1..];
    }
  }

  lemma PutKeeps(scripts: Scripts, s: System)
    requires QueuesOk(scripts, s) && s.pc.Putting?
    ensures QueuesOk(scripts, NextPut(s))
  {
    var r := NextPut(s);
    forall x ensures Whole(Seen(r, x), scripts(x)) {
      assert x == HeadId(s) ==> Seen(r, x) == Seen(s, x) + [s.hand[0]];
      assert x != HeadId(s) ==> Seen(r, x) == Seen(s, x);
    }
  }

  lemma DrainKeeps(scripts: Scripts, s: System)
    requires QueuesOk(scripts, s) && s.pc.Draining?
    ensures QueuesOk(scripts, NextDrain(s))
  {
    var r, id := NextDrain(s), HeadId(s);
    assert NoEnd(At(s.consumed, id)) && NoEnd(At(s.queues, id)) by {
      assert forall k :: 0 <= k < |At(s.consumed, id)| ==> At(s.consumed, id)[k] == Seen(s, id)[k];
      assert forall k :: 0 <= k < |At(s.queues, id)| ==> At(s.queues, id)[k] == Seen(s, id)[|At(s.consumed, id)| + k];
    }
    assert NoEnd(At(r.queues, id)) && r.consumed == s.consumed;
    assert NoEnd(Seen(r, id));
    forall x | x != id ensures Seen(r, x) == Seen(s, x) {}
  }

  // Queues and the dispatcher's work on a message are as before.
  predicate Elsewhere(s: System, r: System) {
    && r.stopped == s.stopped && r.queues == s.queues && r.consumed == s.consumed
    && (r.pc.Putting? || r.pc.Draining? ==> r.hand == s.hand && r.pc == s.pc)
  }

  lemma VisitMoves(s: System, i: nat, look: Look, at: real, broken: set<nat>)
    requires AtWorker(s, i) && CanLook(s.links[i], look)
    ensures Elsewhere(s, NextVisit(s, i, look, at, broken))
  {
  }

  lemma PollMoves(s: System, now: real)
    ensures s.pc.AtTop? ==> Elsewhere(s, NextPollBegin(s, now))
    ensures Elsewhere(s, NextPollEnd(s)) && Elsewhere(s, NextClose(s))
  {
  }

  lemma CancelMoves(s: System, id: RequestId)
    ensures Elsewhere(s, NextCancel(s, id))
  {
  }

  // The steps of callers and polls.
  lemma SchedulerMoves(bounds: Bounds, scripts: Scripts, s: System, step: Step)
    requires s.stopped && Enabled(bounds, scripts, s, step) && OfScheduler(step)
    ensures Elsewhere(s, NextAfter(bounds, scripts, s, step))
  {
    match step
    case CancelRequest(id) => CancelMoves(s, id);
    case Visit(look, at, broken) => VisitMoves(s, s.pc.next, look, at, broken);
    case PollBegin(now) => PollMoves(s, now);
    case PollEnd => PollMoves(s, 0.0);
    case CloseScheduler => PollMoves(s, 0.0);
    case _ =>
  }

  lemma ChildKeeps(bounds: Bounds, scripts: Scripts, s: System, step: Step)
    requires QueuesOk(scripts, s) && Enabled(bounds, scripts, s, step) && OfChild(step)
    ensures QueuesOk(scripts, NextAfter(bounds, scripts, s, step))
  {
    ChildParts(bounds, scripts, s, step);
    ElsewhereKeeps(scripts, s, Next(bounds, scripts, s, step));
  }

  lemma RoutingKeeps(bounds: Bounds, scripts: Scripts, s: System, step: Step)
    requires QueuesOk(scripts, s) && Enabled(bounds, scripts, s, step)
    requires step.RouteLook? || step.RouteCheck? || step.RouteRetry? || step.RoutePop? || step.RouteGiveUp? || step.StopSignal?
    ensures QueuesOk(scripts, Next(bounds, scripts, s, step))
  {
    ElsewhereKeeps(scripts, s, Next(bounds, scripts, s, step));
  }

  lemma AfterKeeps(bounds: Bounds, scripts: Scripts, s: System, step: Step)
    requires QueuesOk(scripts, s) && Enabled(bounds, scripts, s, step)
    ensures QueuesOk(scripts, NextAfter(bounds, scripts, s, step))
  {
    if step.Consume? {
      ConsumeKeeps(scripts, s, step.id);
    } else if step.RoutePut? {
      PutKeeps(scripts, s);
    } else if step.DrainOne? || step.DrainDone? {
      DrainKeeps(scripts, s);
    } else if OfChild(step) {
      ChildKeeps(bounds, scripts, s, step);
    } else if OfScheduler(step) {
      SchedulerMoves(bounds, scripts, s, step);
      ElsewhereKeeps(scripts, s, NextAfter(bounds, scripts, s, step));
    } else {
      RoutingKeeps(bounds, scripts, s, step);
    }
  }

  lemma {:induction false} RunAfterKeeps(bounds: Bounds, scripts: Scripts, s: System, steps: seq<Step>, r: System)
    requires QueuesOk(scripts, s) && IsRunAfter(bounds, scripts, s, steps, r)
    ensures QueuesOk(scripts, r)
    decreases |steps|
  {
    if steps != [] {
      AfterKeeps(bounds, scripts, s, steps[0]);
      RunAfterKeeps(bounds, scripts, NextAfter(bounds, scripts, s, steps[0]), steps[1..], r);
    }
  }

  lemma SeenEnd(scripts: Scripts, s: System, id: RequestId, k: nat)
    requires QueuesOk(scripts, s) && k < |At(s.consumed, id)| && At(s.consumed, id)[k].kind.StreamEnd?
    ensures At(s.consumed, id) == scripts(id)
  {
    var seen := Seen(s, id);
    assert seen[k].kind.StreamEnd? && Whole(seen, scripts(id));
    assert k < |seen| - 1 ==> seen[..|seen| - 1][k] == seen[k];
    assert At(s.queues, id) == [];
  }

  /** After a `close` that raised, however long it goes on, a consumer that sees `stream_end` has still seen the whole
      script, although the scheduler's records no longer agree with its workers. */
  lemma EndMeansCompleteAfterAbort(bounds: Bounds, scripts: Scripts, s: System, broken: set<nat>, steps: seq<Step>, r: System,
                                   id: RequestId, k: nat)
    requires Reachable(bounds, scripts, s) && CanAbort(s, broken)
    requires IsRunAfter(bounds, scripts, Aborted(s, broken), steps, r)
    requires k < |At(r.consumed, id)| && At(r.consumed, id)[k].kind.StreamEnd?
    ensures At(r.consumed, id) == scripts(id)
  {
    ReachableInv(bounds, scripts, s);
    StoppedQueuesOk(scripts, s);
    ElsewhereKeeps(scripts, s, Aborted(s, broken));
    RunAfterKeeps(bounds, scripts, Aborted(s, broken), steps, r);
    SeenEnd(scripts, r, id, k);
  }
}
