/** Putting runs of the request path together. */
module StreamTraces {
  import opened StreamSystem
  import opened StreamInvariant
  import opened StreamTheorems
  import opened StreamPolls

  lemma {:induction false} RunsOn(bounds: Bounds, scripts: Scripts, s: System, xs: seq<Step>, t: System, ys: seq<Step>, u: System)
    requires IsRun(bounds, scripts, s, xs, t) && IsRun(bounds, scripts, t, ys, u)
    ensures IsRun(bounds, scripts, s, xs + ys, u)
    decreases |xs|
  {
    if xs == [] {
      assert xs + ys == ys;
    } else {
      assert (xs + ys)[0] == xs[0] && (xs + ys)[1..] == xs[1..] + ys;
      RunsOn(bounds, scripts, Next(bounds, scripts, s, xs[0]), xs[1..], t, ys, u);
    }
  }

  lemma OneStep(bounds: Bounds, scripts: Scripts, s: System, step: Step, t: System)
    requires Enabled(bounds, scripts, s, step) && Next(bounds, scripts, s, step) == t
    ensures IsRun(bounds, scripts, s, [step], t)
  {
    assert [step][1..] == [];
    assert IsRun(bounds, scripts, t, [], t);
  }

  lemma NoStep(bounds: Bounds, scripts: Scripts, s: System)
    ensures IsRun(bounds, scripts, s, [], s)
  {
  }

  // Where a run leads from a reachable state is reachable.
  lemma ReachableOn(bounds: Bounds, scripts: Scripts, s: System, steps: seq<Step>, t: System)
    requires Reachable(bounds, scripts, s) && IsRun(bounds, scripts, s, steps, t)
    ensures Reachable(bounds, scripts, t)
  {
    var s0: System, before: seq<Step> :| SystemInit(s0) && IsRun(bounds, scripts, s0, before, s);
    RunsOn(bounds, scripts, s0, before, s, steps, t);
  }

  // The steps that are not the dispatcher's.
  predicate Outside(step: Step) {
    || step.SubmitRequest? || step.CancelRequest? || step.Consume? || step.StopSignal? || step.CloseScheduler?
    || step.ChildTake? || step.ChildYield? || step.ChildPut? || step.ChildDie? || step.ChildPanic?
  }

  // How many steps the dispatcher took.
  function Own(steps: seq<Step>): (r: nat)
    ensures r <= |steps|
  {
    if steps == [] then 0 else Own(steps[..|steps| - 1]) + if Outside(steps[|steps| - 1]) then 0 else 1
  }

  lemma {:induction false} OwnConcat(xs: seq<Step>, ys: seq<Step>)
    ensures Own(xs + ys) == Own(xs) + Own(ys)
    decreases |ys|
  {
    if ys == [] {
      assert xs + ys == xs;
    } else {
      assert (xs + ys)[..|xs + ys| - 1] == xs + ys[..|ys| - 1];
      OwnConcat(xs, ys[..|ys| - 1]);
    }
  }

  lemma OwnOne(step: Step)
    ensures Own([step]) == if Outside(step) then 0 else 1
  {
    assert [step][..0] == [];
  }

  // The run so far, which began in `s`, and the invariant it kept.
  ghost predicate Sofar(bounds: Bounds, scripts: Scripts, s: System, steps: seq<Step>, t: System) {
    IsRun(bounds, scripts, s, steps, t) && SystemInv(scripts, t)
  }

  lemma Further(bounds: Bounds, scripts: Scripts, s: System, steps: seq<Step>, t: System, step: Step, u: System)
    requires Sofar(bounds, scripts, s, steps, t) && Enabled(bounds, scripts, t, step) && u == Next(bounds, scripts, t, step)
    ensures Sofar(bounds, scripts, s, steps + [step], u)
    ensures Own(steps + [step]) == Own(steps) + if Outside(step) then 0 else 1
  {
    OwnConcat(steps, [step]);
    OwnOne(step);
    OneStep(bounds, scripts, t, step, u);
    RunsOn(bounds, scripts, s, steps, t, [step], u);
    StepKeepsInv(bounds, scripts, t, step);
  }

  lemma FurtherOn(bounds: Bounds, scripts: Scripts, s: System, steps: seq<Step>, t: System, more: seq<Step>, u: System)
    requires Sofar(bounds, scripts, s, steps, t) && Sofar(bounds, scripts, t, more, u)
    ensures Sofar(bounds, scripts, s, steps + more, u)
    ensures Own(steps + more) == Own(steps) + Own(more)
  {
    OwnConcat(steps, more);
    RunsOn(bounds, scripts, s, steps, t, more, u);
  }

  lemma {:induction false} VisitsTrace(bounds: Bounds, scripts: Scripts, s: System, i: nat, turns: seq<Turn>) returns (steps: seq<Step>)
    requires CanVisit(s, i, turns)
    ensures IsRun(bounds, scripts, s, steps, Visits(s, i, turns))
    decreases |turns| - i
  {
    steps := [];
    if i < |turns| {
      var step := Visit(turns[i].look, turns[i].at, turns[i].broken);
      var t := NextVisit(s, i, turns[i].look, turns[i].at, turns[i].broken);
      OneStep(bounds, scripts, s, step, t);
      var more: seq<Step> := [];
      if t.pc.Polling? { more := VisitsTrace(bounds, scripts, t, i + 1, turns); }
      RunsOn(bounds, scripts, s, [step], t, more, Visits(s, i, turns));
      steps := [step] + more;
    }
  }

  /** A poll under the lock is a run of the request path. */
  lemma PollTrace(bounds: Bounds, scripts: Scripts, s: System, now: real, turns: seq<Turn>) returns (steps: seq<Step>)
    requires SystemInv(scripts, s) && s.pc.AtTop?
    requires var t := Next(bounds, scripts, s, PollBegin(now)); t.pc.Polling? ==> CanVisit(t, 0, turns)
    ensures Sofar(bounds, scripts, s, steps, PollSteps(bounds, scripts, s, now, turns))
  {
    var t := Next(bounds, scripts, s, PollBegin(now));
    OneStep(bounds, scripts, s, PollBegin(now), t);
    steps := [PollBegin(now)];
    if t.pc.Polling? {
      var u := Visits(t, 0, turns);
      var visits := VisitsTrace(bounds, scripts, t, 0, turns);
      RunsOn(bounds, scripts, s, steps, t, visits, u);
      steps := steps + visits;
      if u.pc == Polling(|u.links|) {
        var v := Next(bounds, scripts, u, PollEnd);
        OneStep(bounds, scripts, u, PollEnd, v);
        RunsOn(bounds, scripts, s, steps, u, [PollEnd], v);
        steps := steps + [PollEnd];
      }
    }
    RunKeepsInv(bounds, scripts, s, steps, PollSteps(bounds, scripts, s, now, turns));
  }
}
