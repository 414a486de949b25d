/** The audio that a backend makes reaches who asked for it: through the child, the scheduler and the runtime. */
module StreamAudio {
  import opened Messages
  import opened SchedulerSpec
  import opened StreamSystem
  import opened StreamInvariant
  import opened StreamTheorems
  import opened StreamTables
  import WP = WorkerProcesses

  /** A consumer that sees `stream_end` has read exactly the chunks that the backend made, in order, and no request but a
      stream that opened and ended is answered so. */
  lemma EndMeansAllAudio(bounds: Bounds, scripts: Scripts, s: System, id: RequestId, k: nat, w: nat, work: WP.Work)
    requires Reachable(bounds, scripts, s) && scripts(id) == WP.Script(w, id, work)
    requires k < |At(s.consumed, id)| && At(s.consumed, id)[k].kind.StreamEnd?
    ensures work.Streaming? && work.opens && work.ends
    ensures WP.Payloads(StreamChunk, id, At(s.consumed, id)) == work.chunks
  {
    EndMeansComplete(bounds, scripts, s, id, k);
    WP.ScriptCarries(w, id, work);
  }

  /* ---- One-shot requests ---- */

  // Results are of the request's own script, or failures.
  ghost predicate ResultsOk(scripts: Scripts, s: System) {
    forall id :: id in s.resolved ==>
      s.resolved[id].requestId == Some(id) && FailsOrAnswers(s.resolved[id], scripts(id))
  }

  predicate FailsOrAnswers(m: Message, script: seq<Message>) {
    m.kind.Error? || m.kind.Cancelled? || (m.kind.Result? && m in script)
  }

  lemma LookResults(scripts: Scripts, s: System)
    requires ResultsOk(scripts, s) && TablesOk(scripts, s) && s.pc.Looking?
    ensures ResultsOk(scripts, NextLook(s))
  {
    var r := NextLook(s);
    LookResolves(s, r);
    if r.resolved != s.resolved { HeadAnswers(scripts, s.hand); }
  }

  lemma LookResolves(s: System, r: System)
    requires s.pc.Looking? && r == NextLook(s)
    ensures || r.resolved == s.resolved
            || (s.hand != [] && s.hand[0].requestId.Some? && Resolving(s.hand[0].kind)
                && r.resolved == s.resolved[s.hand[0].requestId.value := s.hand[0]])
  {
  }

  lemma HeadAnswers(scripts: Scripts, hand: seq<Message>)
    requires Genuine(scripts, hand) && hand != [] && hand[0].requestId.Some? && Resolving(hand[0].kind)
    ensures FailsOrAnswers(hand[0], scripts(hand[0].requestId.value))
  {
  }

  lemma VisitResults(s: System, i: nat, look: Look, at: real, broken: set<nat>)
    requires AtWorker(s, i) && CanLook(s.links[i], look)
    ensures NextVisit(s, i, look, at, broken).resolved == s.resolved
  {
  }

  lemma StepResults(bounds: Bounds, scripts: Scripts, s: System, step: Step)
    requires ResultsOk(scripts, s) && TablesOk(scripts, s) && Enabled(bounds, scripts, s, step)
    ensures ResultsOk(scripts, Next(bounds, scripts, s, step))
  {
    if step.RouteLook? {
      LookResults(scripts, s);
    } else if OfScheduler(step) {
      SchedulerResolvesNone(bounds, scripts, s, step);
    } else {
      LocalParts(bounds, scripts, s, step);
    }
  }

  lemma SchedulerResolvesNone(bounds: Bounds, scripts: Scripts, s: System, step: Step)
    requires Enabled(bounds, scripts, s, step) && OfScheduler(step)
    ensures Next(bounds, scripts, s, step).resolved == s.resolved
  {
    if step.Visit? {
      VisitResults(s, s.pc.next, step.look, step.at, step.broken);
    } else if step.SubmitRequest? {
      SubmitResults(s, step.request, step.now, step.broken, step.asStream);
    }
  }

  lemma SubmitResults(s: System, request: Request, now: real, broken: set<nat>, asStream: bool)
    ensures NextSubmit(s, request, now, broken, asStream).resolved == s.resolved
  {
  }

  lemma {:induction false} RunResults(bounds: Bounds, scripts: Scripts, s: System, steps: seq<Step>, r: System)
    requires SystemInv(scripts, s) && TablesOk(scripts, s) && ResultsOk(scripts, s) && IsRun(bounds, scripts, s, steps, r)
    ensures ResultsOk(scripts, r)
    decreases |steps|
  {
    if steps != [] {
      StepResults(bounds, scripts, s, steps[0]);
      StepTables(bounds, scripts, s, steps[0]);
      StepKeepsInv(bounds, scripts, s, steps[0]);
      RunResults(bounds, scripts, Next(bounds, scripts, s, steps[0]), steps[1..], r);
    }
  }

  lemma ReachableResults(bounds: Bounds, scripts: Scripts, s: System)
    requires Reachable(bounds, scripts, s)
    ensures ResultsOk(scripts, s)
  {
    var s0: System, steps: seq<Step> :| SystemInit(s0) && IsRun(bounds, scripts, s0, steps, s);
    InitIsOk(scripts, s0);
    InitTables(scripts, s0);
    RunResults(bounds, scripts, s0, steps, s);
  }

  lemma ResultInScript(w: nat, id: RequestId, work: WP.Work, m: Message)
    requires m in WP.Script(w, id, work) && m.kind.Result?
    ensures work == WP.OneShot(WP.Audio(m.payload))
  {
  }

  /** A future is resolved with the end of its own request, or with a failure: if what it holds is a result, then it is the
      audio that the backend made for that request. */
  lemma ResultIsItsAudio(bounds: Bounds, scripts: Scripts, s: System, id: RequestId, w: nat, work: WP.Work)
    requires Reachable(bounds, scripts, s) && scripts(id) == WP.Script(w, id, work) && id in s.resolved
    ensures s.resolved[id].requestId == Some(id) && s.resolved[id].kind in {Kind.Result, Error, Cancelled}
    ensures s.resolved[id].kind.Result? ==> work == WP.OneShot(WP.Audio(s.resolved[id].payload))
  {
    ReachableResults(bounds, scripts, s);
    if s.resolved[id].kind.Result? { ResultInScript(w, id, work, s.resolved[id]); }
  }
}
