/** What a consumer of a stream can rely on, over every interleaving. */
module StreamTheorems {
  import opened Messages
  import opened WorkerModel
  import opened StreamSystem
  import opened StreamInvariant
  import opened StreamScheduling
  import opened StreamWorkers
  import opened StreamVisits
  import opened StreamRouting

  lemma RoutingStepKeeps(bounds: Bounds, scripts: Scripts, s: System, step: Step)
    requires SystemInv(scripts, s) && Enabled(bounds, scripts, s, step)
    requires step.RouteCheck? || step.RoutePut? || step.RouteRetry? || step.RouteGiveUp? || step.DrainOne? || step.DrainDone?
    ensures SystemInv(scripts, Next(bounds, scripts, s, step))
  {
    var s' := Next(bounds, scripts, s, step);
    if step.RouteCheck? { CheckKeeps(scripts, s); }
    else if step.RoutePut? { PutKeeps(scripts, s, s'); }
    else if step.RouteRetry? { PcKeeps(scripts, s, Checking); }
    else if step.RouteGiveUp? { AbandonKeeps(scripts, s); }
    else {
      assert NoEnd(At(s.queues, HeadId(s)));
      DrainKeeps(scripts, s, s');
    }
  }

  lemma SchedulingStepKeeps(bounds: Bounds, scripts: Scripts, s: System, step: Step)
    requires SystemInv(scripts, s) && Enabled(bounds, scripts, s, step) && OfScheduler(step)
    ensures SystemInv(scripts, Next(bounds, scripts, s, step))
  {
    if step.SubmitRequest? { SubmitStepKeeps(scripts, s, step.request, step.now, step.broken, step.asStream); }
    else if step.CancelRequest? { CancelStepKeeps(bounds, scripts, s, step.id); }
    else if step.PollBegin? { PollBeginKeeps(bounds, scripts, s, step.now); }
    else if step.Visit? { VisitKeeps(scripts, s, s.pc.next, step.look, step.at, step.broken); }
    else if step.PollEnd? { PollEndKeeps(bounds, scripts, s); }
    else { CloseStepKeeps(bounds, scripts, s); }
  }

  lemma StepKeepsInv(bounds: Bounds, scripts: Scripts, s: System, step: Step)
    requires SystemInv(scripts, s) && Enabled(bounds, scripts, s, step)
    ensures SystemInv(scripts, Next(bounds, scripts, s, step))
  {
    if OfChild(step) { ChildStepKeeps(bounds, scripts, s, step); }
    else if OfScheduler(step) { SchedulingStepKeeps(bounds, scripts, s, step); }
    else if step.RouteLook? { LookKeeps(scripts, s); }
    else if step.RoutePop? { PopKeeps(scripts, s, s.pc.id); }
    else if step.Consume? { ConsumeKeeps(scripts, s, step.id); }
    else if step.StopSignal? { StopKeeps(scripts, s); }
    else { RoutingStepKeeps(bounds, scripts, s, step); }
  }

  lemma {:induction false} RunKeepsInv(bounds: Bounds, scripts: Scripts, s: System, steps: seq<Step>, r: System)
    requires SystemInv(scripts, s) && IsRun(bounds, scripts, s, steps, r)
    ensures SystemInv(scripts, r)
    decreases |steps|
  {
    if steps != [] {
      StepKeepsInv(bounds, scripts, s, steps[0]);
      RunKeepsInv(bounds, scripts, Next(bounds, scripts, s, steps[0]), steps[1..], r);
    }
  }

  ghost predicate Reachable(bounds: Bounds, scripts: Scripts, s: System) {
    exists s0: System, steps: seq<Step> :: SystemInit(s0) && IsRun(bounds, scripts, s0, steps, s)
  }

  lemma ReachableInv(bounds: Bounds, scripts: Scripts, s: System)
    requires Reachable(bounds, scripts, s)
    ensures SystemInv(scripts, s)
  {
    var s0: System, steps: seq<Step> :| SystemInit(s0) && IsRun(bounds, scripts, s0, steps, s);
    InitIsOk(scripts, s0);
    RunKeepsInv(bounds, scripts, s0, steps, s);
  }

  /** In every reachable state, for a request that is running and of which the runtime discarded nothing:
      consumed ++ stream queue ++ dispatcher's batch ++ scheduler's events ++ result queue ++ held and not
      yet produced is the whole script of the request. */
  lemma StreamConservation(bounds: Bounds, scripts: Scripts, s: System, w: nat)
    requires Reachable(bounds, scripts, s) && w in s.sched.active
    ensures w < |s.links|
    ensures var id := s.sched.active[w];
      id !in s.lost ==>
        At(s.consumed, id) + At(s.queues, id) + For(id, s.hand) + For(id, s.sched.events)
        + (For(id, s.links[w].results) + Rest(scripts, s.links[w], id)) == scripts(id)
  {
    ReachableInv(bounds, scripts, s);
    Reading(scripts, s, w);
  }

  // What holds of a flow holds of what has been consumed of it.
  lemma FaithfulPrefix(c: seq<Message>, rest: seq<Message>, script: seq<Message>)
    requires Faithful(c + rest, script)
    ensures Faithful(c, script)
  {
    var flow := c + rest;
    if flow <= script {
      assert c <= script;
    } else if rest == [] {
      assert flow == c;
    } else {
      assert c <= flow[..|flow| - 1];
    }
  }

  /** A consumer never sees a chunk out of order, twice or invented: of a stream of which nothing was
      discarded it has seen a part of the script from its start, possibly followed by one failure. */
  lemma ConsumerSeesPrefix(bounds: Bounds, scripts: Scripts, s: System, id: RequestId)
    requires Reachable(bounds, scripts, s) && id !in s.lost
    ensures Faithful(At(s.consumed, id), scripts(id))
  {
    ReachableInv(bounds, scripts, s);
    ConsumedPrefix(scripts, s, id);
  }

  lemma ConsumedPrefix(scripts: Scripts, s: System, id: RequestId)
    requires SystemInv(scripts, s) && id !in s.lost
    ensures Faithful(At(s.consumed, id), scripts(id))
  {
    if At(s.consumed, id) != [] {
      FlowShape(scripts, s, id);
      StartIsFaithful(At(s.consumed, id), At(s.queues, id), For(id, s.hand), For(id, s.sched.events), scripts(id));
    }
  }

  lemma StartIsFaithful(c: seq<Message>, q: seq<Message>, h: seq<Message>, e: seq<Message>, script: seq<Message>)
    requires Faithful(c + q + h + e, script)
    ensures Faithful(c, script)
  {
    assert c + q + h + e == c + (q + h + e);
    FaithfulPrefix(c, q + h + e, script);
  }

  /** A consumer that sees `stream_end` has seen the whole script: every chunk once and in order.  This
      holds in every interleaving, with crashes, expiries, cancellations, backpressure and shutdown. */
  lemma EndMeansComplete(bounds: Bounds, scripts: Scripts, s: System, id: RequestId, k: nat)
    requires Reachable(bounds, scripts, s)
    requires k < |At(s.consumed, id)| && At(s.consumed, id)[k].kind.StreamEnd?
    ensures At(s.consumed, id) == scripts(id)
  {
    ReachableInv(bounds, scripts, s);
    assert id !in s.lost;
    ConsumedPrefix(scripts, s, id);
    assert Flow(s, id) != [] by { assert Flow(s, id)[k] == At(s.consumed, id)[k]; }
    FlowShape(scripts, s, id);
    EndedPrefix(At(s.consumed, id), scripts(id), id, k);
  }

  lemma EndedPrefix(c: seq<Message>, script: seq<Message>, id: RequestId, k: nat)
    requires Faithful(c, script) && (ScriptOk(script, id, true) || ScriptOk(script, id, false))
    requires k < |c| && c[k].kind.StreamEnd?
    ensures c == script
  {
    if c <= script {
      assert c[k] == script[k];
      EndIsLast(script, id, k);
    } else {
      assert c[..|c| - 1][k] == script[k];
      EndIsLast(script, id, k);
    }
  }

  /** In every reachable state no visit of a poll can raise `request_id_mismatch`. */
  lemma NoMismatch(bounds: Bounds, scripts: Scripts, s: System, i: nat, look: Look)
    requires Reachable(bounds, scripts, s)
    requires i in s.sched.active && AtWorker(s, i) && CanLook(s.links[i], look)
    ensures Receive(s.sched.workers[i], ReadOf(s.links[i], look)).1 != Broke(RequestIdMismatch)
  {
    ReachableInv(bounds, scripts, s);
    MismatchIsUnreachable(scripts, s, i, look);
  }

  /** In every reachable state a ready worker with a live child has an empty pipe, an empty result queue and
      a child waiting for a command; a busy one has at most one terminal of its request upstream, and last. */
  lemma ProtocolOk(bounds: Bounds, scripts: Scripts, s: System, w: nat)
    requires Reachable(bounds, scripts, s) && w < |s.links|
    ensures |s.links| == |s.sched.workers|
    ensures s.sched.workers[w].state.Ready? && s.links[w].alive ==>
      s.links[w].control == [] && s.links[w].results == [] && s.links[w].child.Waiting?
    ensures w in s.sched.active ==>
      var wire := Wire(scripts, s.links[w], s.sched.active[w]);
      wire != [] && forall k :: 0 <= k < |wire| ==> (Terminal(wire[k].kind) <==> k == |wire| - 1)
  {
    ReachableInv(bounds, scripts, s);
    assert LinkOk(s.sched.workers[w], s.links[w]);
    if w in s.sched.active {
      Reading(scripts, s, w);
      SuffixEnds(scripts(s.sched.active[w]), s.sched.active[w], Wire(scripts, s.links[w], s.sched.active[w]));
    }
  }

  lemma SuffixEnds(script: seq<Message>, id: RequestId, wire: seq<Message>)
    requires (ScriptOk(script, id, true) || ScriptOk(script, id, false)) && wire != [] && Suffix(wire, script)
    ensures forall k :: 0 <= k < |wire| ==> (Terminal(wire[k].kind) <==> k == |wire| - 1)
  {
    assert forall k :: 0 <= k < |wire| ==> wire[k] == script[|script| - |wire| + k];
  }
}
