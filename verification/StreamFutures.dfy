/** How futures leave the runtime's table: once, and each for one reason. */
module StreamFutures {
  import opened Messages
  import opened SchedulerSpec
  import opened SchedulerInvariants
  import opened StreamSystem
  import opened StreamTheorems
  import opened StreamTables

  // The step that takes the future of `id` out of the table.
  predicate TakesOut(s: System, step: Step, id: RequestId) {
    || step == CancelRequest(id)
    || step.CloseScheduler?
    || (step.RouteLook? && s.hand != [] && s.hand[0].requestId == Some(id) && Resolving(s.hand[0].kind))
  }

  lemma SubmitFutures(s: System, request: Request, now: real, broken: set<nat>, asStream: bool)
    ensures var s' := NextSubmit(s, request, now, broken, asStream);
      && s.futures <= s'.futures <= s.futures + {request.id}
      && s.sched.submitted <= s'.sched.submitted
      && (request.id in s.sched.submitted ==> s'.futures == s.futures)
  {
    SubmitCases(s.sched, request, now, broken);
  }

  lemma VisitFutures(s: System, i: nat, look: Look, at: real, broken: set<nat>)
    requires AtWorker(s, i) && CanLook(s.links[i], look)
    ensures var s' := NextVisit(s, i, look, at, broken); s'.futures == s.futures && s'.sched.submitted == s.sched.submitted
  {
  }

  lemma LookFutures(s: System, id: RequestId)
    ensures var s' := NextLook(s);
      && s'.futures <= s.futures && s'.sched == s.sched
      && (id in s.futures && id !in s'.futures ==>
            s.hand != [] && s.hand[0].requestId == Some(id) && Resolving(s.hand[0].kind)
            && id in s'.resolved && s'.resolved[id] == s.hand[0])
  {
  }

  lemma CheckFutures(s: System)
    requires s.hand != []
    ensures NextCheck(s).futures == s.futures && NextCheck(s).sched == s.sched
  {
  }

  lemma CloseSubmitted(s: State)
    ensures Close(s).submitted == s.submitted && FailPendingWithoutHealthy(s).submitted == s.submitted
  {
  }

  lemma CancelSubmitted(s: State, id: RequestId)
    ensures Cancel(s, id).0.submitted == s.submitted
  {
  }

  /** A future leaves the table in one of three ways: the dispatcher resolves it with an event of its request,
      its request is cancelled, or the runtime closes. */
  lemma LeavesBy(bounds: Bounds, scripts: Scripts, s: System, step: Step, id: RequestId)
    requires Enabled(bounds, scripts, s, step) && id in s.futures && id !in Next(bounds, scripts, s, step).futures
    ensures TakesOut(s, step, id)
    ensures step.RouteLook? ==> var r := Next(bounds, scripts, s, step).resolved; id in r && r[id] == s.hand[0]
  {
    if step.SubmitRequest? {
      SubmitFutures(s, step.request, step.now, step.broken, step.asStream);
    } else if step.Visit? {
      VisitFutures(s, s.pc.next, step.look, step.at, step.broken);
    } else if step.RouteLook? {
      LookFutures(s, id);
    } else if step.RouteCheck? {
      CheckFutures(s);
    }
  }

  lemma SubmittedGrows(bounds: Bounds, scripts: Scripts, s: System, step: Step)
    requires Enabled(bounds, scripts, s, step)
    ensures s.sched.submitted <= Next(bounds, scripts, s, step).sched.submitted
  {
    if step.SubmitRequest? {
      SubmitFutures(s, step.request, step.now, step.broken, step.asStream);
    } else if step.Visit? {
      VisitFutures(s, s.pc.next, step.look, step.at, step.broken);
    } else if step.RouteLook? {
      LookFutures(s, 0);
    } else if step.RouteCheck? {
      CheckFutures(s);
    } else if step.CancelRequest? {
      CancelSubmitted(s.sched, step.id);
    } else if step.CloseScheduler? || step.PollEnd? {
      CloseSubmitted(s.sched);
    }
  }

  lemma StaysOut(bounds: Bounds, scripts: Scripts, s: System, step: Step, id: RequestId)
    requires Enabled(bounds, scripts, s, step) && id in s.sched.submitted && id !in s.futures
    ensures var s' := Next(bounds, scripts, s, step); id in s'.sched.submitted && id !in s'.futures
  {
    SubmittedGrows(bounds, scripts, s, step);
    if step.SubmitRequest? {
      SubmitFutures(s, step.request, step.now, step.broken, step.asStream);
    } else if step.Visit? {
      VisitFutures(s, s.pc.next, step.look, step.at, step.broken);
    } else if step.RouteLook? {
      LookFutures(s, id);
    } else if step.RouteCheck? {
      CheckFutures(s);
    }
  }

  /* ---- Over whole runs ---- */

  lemma SubmitResolved(s: System, request: Request, now: real, broken: set<nat>, asStream: bool)
    ensures NextSubmit(s, request, now, broken, asStream).resolved == s.resolved
  {
  }

  lemma VisitResolved(s: System, i: nat, look: Look, at: real, broken: set<nat>)
    requires AtWorker(s, i) && CanLook(s.links[i], look)
    ensures NextVisit(s, i, look, at, broken).resolved == s.resolved
  {
  }

  // A step resolves at most the future at the head of the batch, and takes it out of the table.
  lemma ResolvedBy(bounds: Bounds, scripts: Scripts, s: System, step: Step, id: RequestId)
    requires Enabled(bounds, scripts, s, step)
    ensures var s' := Next(bounds, scripts, s, step);
      id in s'.resolved <==> id in s.resolved || (step.RouteLook? && id in s.futures && id !in s'.futures)
  {
    if step.SubmitRequest? {
      SubmitResolved(s, step.request, step.now, step.broken, step.asStream);
    } else if step.Visit? {
      VisitResolved(s, s.pc.next, step.look, step.at, step.broken);
    } else if step.RouteLook? {
      LookFutures(s, id);
      LookResolves(s, id);
    }
  }

  lemma LookResolves(s: System, id: RequestId)
    ensures id in NextLook(s).resolved <==> id in s.resolved || (id in s.futures && id !in NextLook(s).futures)
  {
  }

  // Step `k` of the run, taken in `t`, takes the future of `id` out of the table.
  ghost predicate RemovedAt(bounds: Bounds, scripts: Scripts, s: System, steps: seq<Step>, k: nat, t: System, id: RequestId) {
    && k < |steps| && IsRun(bounds, scripts, s, steps[..k], t) && Enabled(bounds, scripts, t, steps[k])
    && id in t.futures && id !in Next(bounds, scripts, t, steps[k]).futures
  }

  lemma {:induction false} NeverBackNorResolved(bounds: Bounds, scripts: Scripts, s: System, steps: seq<Step>, r: System, id: RequestId)
    requires IsRun(bounds, scripts, s, steps, r) && id in s.sched.submitted && id !in s.futures
    ensures id !in r.futures && (id in r.resolved <==> id in s.resolved)
    decreases |steps|
  {
    if steps != [] {
      StaysOut(bounds, scripts, s, steps[0], id);
      ResolvedBy(bounds, scripts, s, steps[0], id);
      NeverBackNorResolved(bounds, scripts, Next(bounds, scripts, s, steps[0]), steps[1..], r, id);
    }
  }

  // The first step of a run and the rest of it.
  lemma RemovedLater(bounds: Bounds, scripts: Scripts, s: System, steps: seq<Step>, k: nat, t: System, id: RequestId)
    requires steps != [] && Enabled(bounds, scripts, s, steps[0]) && k < |steps[1..]|
    ensures RemovedAt(bounds, scripts, Next(bounds, scripts, s, steps[0]), steps[1..], k, t, id)
       <==> RemovedAt(bounds, scripts, s, steps, k + 1, t, id)
  {
    assert steps[..k + 1][1..] == steps[1..][..k];
  }

  lemma {:induction false} RemovalOnce(bounds: Bounds, scripts: Scripts, s: System, steps: seq<Step>,
                                       k: nat, t: System, j: nat, u: System, id: RequestId)
    requires id in s.sched.submitted
    requires RemovedAt(bounds, scripts, s, steps, k, t, id) && RemovedAt(bounds, scripts, s, steps, j, u, id)
    ensures k == j && t == u
    decreases |steps|
  {
    if k == 0 && j == 0 {
      SameStart(bounds, scripts, s, steps, t, u, id);
    } else if j == 0 {
      RemovedFirst(bounds, scripts, s, steps, u, k, t, id);
    } else if k == 0 {
      RemovedFirst(bounds, scripts, s, steps, t, j, u, id);
    } else {
      var s1 := RemovedTails(bounds, scripts, s, steps, k, t, j, u, id);
      RemovalOnce(bounds, scripts, s1, steps[1..], k - 1, t, j - 1, u, id);
    }
  }

  lemma RemovedTails(bounds: Bounds, scripts: Scripts, s: System, steps: seq<Step>, k: nat, t: System, j: nat, u: System, id: RequestId)
      returns (s1: System)
    requires id in s.sched.submitted && k > 0 && j > 0
    requires RemovedAt(bounds, scripts, s, steps, k, t, id) && RemovedAt(bounds, scripts, s, steps, j, u, id)
    ensures id in s1.sched.submitted && |steps| > 0
    ensures RemovedAt(bounds, scripts, s1, steps[1..], k - 1, t, id) && RemovedAt(bounds, scripts, s1, steps[1..], j - 1, u, id)
  {
    s1 := RemovedTail(bounds, scripts, s, steps, k, t, id);
    var s2 := RemovedTail(bounds, scripts, s, steps, j, u, id);
  }

  lemma RemovedTail(bounds: Bounds, scripts: Scripts, s: System, steps: seq<Step>, k: nat, t: System, id: RequestId)
      returns (s1: System)
    requires id in s.sched.submitted && RemovedAt(bounds, scripts, s, steps, k, t, id) && k > 0
    ensures Enabled(bounds, scripts, s, steps[0]) && s1 == Next(bounds, scripts, s, steps[0]) && id in s1.sched.submitted
    ensures RemovedAt(bounds, scripts, s1, steps[1..], k - 1, t, id)
  {
    assert steps[..k][0] == steps[0];
    s1 := Next(bounds, scripts, s, steps[0]);
    RemovedLater(bounds, scripts, s, steps, k - 1, t, id);
    SubmittedGrows(bounds, scripts, s, steps[0]);
  }

  lemma SameStart(bounds: Bounds, scripts: Scripts, s: System, steps: seq<Step>, t: System, u: System, id: RequestId)
    requires RemovedAt(bounds, scripts, s, steps, 0, t, id) && RemovedAt(bounds, scripts, s, steps, 0, u, id)
    ensures t == s && u == s
  {
  }

  // After a removal by the first step there is no other.
  lemma RemovedFirst(bounds: Bounds, scripts: Scripts, s: System, steps: seq<Step>, u: System, k: nat, t: System, id: RequestId)
    requires id in s.sched.submitted && RemovedAt(bounds, scripts, s, steps, 0, u, id) && k > 0
    ensures !RemovedAt(bounds, scripts, s, steps, k, t, id)
  {
    if k < |steps| && IsRun(bounds, scripts, s, steps[..k], t) {
      var s1 := Next(bounds, scripts, s, steps[0]);
      SubmittedGrows(bounds, scripts, s, steps[0]);
      assert steps[..k][1..] == steps[1..k];
      NeverBackNorResolved(bounds, scripts, s1, steps[1..k], t, id);
    }
  }

  lemma {:induction false} RemovedSomewhere(bounds: Bounds, scripts: Scripts, s: System, steps: seq<Step>, r: System, id: RequestId)
      returns (k: nat, t: System)
    requires IsRun(bounds, scripts, s, steps, r) && id in s.sched.submitted && id in s.futures && id !in r.futures && id !in s.resolved
    ensures RemovedAt(bounds, scripts, s, steps, k, t, id) && (id in r.resolved <==> steps[k].RouteLook?)
    decreases |steps|
  {
    var s1 := Next(bounds, scripts, s, steps[0]);
    SubmittedGrows(bounds, scripts, s, steps[0]);
    ResolvedBy(bounds, scripts, s, steps[0], id);
    if id !in s1.futures {
      k, t := 0, s;
      NeverBackNorResolved(bounds, scripts, s1, steps[1..], r, id);
    } else {
      var j;
      j, t := RemovedSomewhere(bounds, scripts, s1, steps[1..], r, id);
      k := j + 1;
      RemovedLater(bounds, scripts, s, steps, j, t, id);
    }
  }

  /** A future that was in the table and is gone was taken out by exactly one step of the run between: a routed event of
      its request, its cancellation, or shutdown; and it has a result exactly when that step was the routing. */
  lemma FutureLeavesOnce(bounds: Bounds, scripts: Scripts, s: System, steps: seq<Step>, r: System, id: RequestId)
    requires Reachable(bounds, scripts, s) && IsRun(bounds, scripts, s, steps, r) && id in s.futures && id !in r.futures
    ensures exists k: nat, t: System ::
      && RemovedAt(bounds, scripts, s, steps, k, t, id) && TakesOut(t, steps[k], id)
      && (id in r.resolved <==> steps[k].RouteLook?)
    ensures forall k: nat, t: System, j: nat, u: System ::
      RemovedAt(bounds, scripts, s, steps, k, t, id) && RemovedAt(bounds, scripts, s, steps, j, u, id) ==> k == j && t == u
  {
    ReachableTables(bounds, scripts, s);
    var k, t := RemovedSomewhere(bounds, scripts, s, steps, r, id);
    LeavesBy(bounds, scripts, t, steps[k], id);
    forall k: nat, t: System, j: nat, u: System
      | RemovedAt(bounds, scripts, s, steps, k, t, id) && RemovedAt(bounds, scripts, s, steps, j, u, id)
      ensures k == j && t == u
    {
      RemovalOnce(bounds, scripts, s, steps, k, t, j, u, id);
    }
  }
}
