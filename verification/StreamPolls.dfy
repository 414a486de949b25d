/** The steps that the dispatcher takes under the lock make up one `poll` of the scheduler. */
module StreamPolls {
  import opened SchedulerSpec
  import opened StreamSystem

  // What a visit will meet.
  datatype Turn = Turn(look: Look, at: real, broken: set<nat>)

  // The visits of workers `i` and on can be made, one after the other, until one raises.
  ghost predicate CanVisit(s: System, i: nat, turns: seq<Turn>)
    decreases |turns| - i
  {
    && i <= |turns| == |s.links| == |s.sched.workers| && s.pc == Polling(i)
    && (i < |turns| ==>
          && CanLook(s.links[i], turns[i].look)
          && var t := NextVisit(s, i, turns[i].look, turns[i].at, turns[i].broken);
             t.pc.Polling? ==> CanVisit(t, i + 1, turns))
  }

  ghost function Visits(s: System, i: nat, turns: seq<Turn>): System
    requires CanVisit(s, i, turns)
    decreases |turns| - i
  {
    if i == |turns| then s
    else
      var t := NextVisit(s, i, turns[i].look, turns[i].at, turns[i].broken);
      if t.pc.Polling? then Visits(t, i + 1, turns) else t
  }

  // The replies are what those visits read.
  ghost predicate Matches(s: System, i: nat, turns: seq<Turn>, replies: seq<Reply>)
    requires CanVisit(s, i, turns)
    decreases |turns| - i
  {
    && |replies| == |turns|
    && (i < |turns| ==>
          && replies[i] == Reply(ReadOf(s.links[i], turns[i].look), turns[i].at, turns[i].broken)
          && var t := NextVisit(s, i, turns[i].look, turns[i].at, turns[i].broken);
             t.pc.Polling? ==> Matches(t, i + 1, turns, replies))
  }

  // A visit touches nothing but the scheduler, the links and the position.
  lemma VisitElsewhere(s: System, i: nat, look: Look, at: real, broken: set<nat>, s': System)
    requires AtWorker(s, i) && CanLook(s.links[i], look) && s' == NextVisit(s, i, look, at, broken)
    ensures s' == s.(sched := s'.sched, links := s'.links, pc := s'.pc) && (s'.pc.AtTop? || s'.pc.Polling?)
  {
  }

  lemma VisitIsPollWorker(s: System, i: nat, look: Look, at: real, broken: set<nat>)
    requires s.pc == Polling(i) && AtWorker(s, i) && CanLook(s.links[i], look)
    ensures var t := NextVisit(s, i, look, at, broken);
      (t.sched, t.pc == AtTop) == PollWorker(s.sched, i, Reply(ReadOf(s.links[i], look), at, broken))
      && (t.pc == AtTop || t.pc == Polling(i + 1))
  {
  }

  lemma {:induction false} VisitsArePollFrom(s: System, i: nat, turns: seq<Turn>, replies: seq<Reply>)
    requires CanVisit(s, i, turns) && Matches(s, i, turns, replies)
    ensures var (r, raised) := PollFrom(s.sched, i, replies);
      var t := Visits(s, i, turns);
      && t.sched == r && t.pc == (if raised then AtTop else Polling(|turns|)) && |t.links| == |turns|
      && t == s.(sched := t.sched, links := t.links, pc := t.pc)
    decreases |turns| - i
  {
    if i < |turns| {
      VisitIsPollWorker(s, i, turns[i].look, turns[i].at, turns[i].broken);
      var t := NextVisit(s, i, turns[i].look, turns[i].at, turns[i].broken);
      VisitElsewhere(s, i, turns[i].look, turns[i].at, turns[i].broken, t);
      if t.pc.Polling? { VisitsArePollFrom(t, i + 1, turns, replies); }
    }
  }

  // A whole poll: its first part, the visits, and unless one raises the last part.
  ghost function PollSteps(bounds: Bounds, scripts: Scripts, s: System, now: real, turns: seq<Turn>): System
    requires s.pc.AtTop?
    requires var t := Next(bounds, scripts, s, PollBegin(now)); t.pc.Polling? ==> CanVisit(t, 0, turns)
  {
    var t := Next(bounds, scripts, s, PollBegin(now));
    if !t.pc.Polling? then t
    else
      var u := Visits(t, 0, turns);
      if u.pc == Polling(|u.links|) then Next(bounds, scripts, u, PollEnd) else u
  }

  /** Run one after the other, as they are while the lock is held, the steps do to the scheduler what `poll` does
      on the same readings, and leave the dispatcher with the events that `poll` returns. */
  lemma StepsMakeAPoll(bounds: Bounds, scripts: Scripts, s: System, now: real, turns: seq<Turn>, replies: seq<Reply>)
    requires s.pc.AtTop? && s.hand == [] && |s.sched.workers| == |replies|
    requires var t := Next(bounds, scripts, s, PollBegin(now));
      t.pc.Polling? ==> CanVisit(t, 0, turns) && Matches(t, 0, turns, replies)
    ensures var r := PollSteps(bounds, scripts, s, now, turns);
      r == AfterPoll(s, now, replies).(links := r.links)
  {
    var t := Next(bounds, scripts, s, PollBegin(now));
    PollBeginIs(bounds, scripts, s, now, t);
    if t.pc.Polling? {
      VisitsArePollFrom(t, 0, turns, replies);
      var u := Visits(t, 0, turns);
      if u.pc.Polling? { PollEndIs(bounds, scripts, u); }
    }
  }

  // The dispatcher after a poll, when it holds no events.
  function AfterPoll(s: System, now: real, replies: seq<Reply>): System
    requires |s.sched.workers| <= |replies|
  {
    var (p, outcome) := Poll(s.sched, now, replies);
    s.(sched := p, hand := if outcome.Events? then outcome.events else [], pc := if outcome.Events? then Looking else AtTop)
  }

  lemma PollBeginIs(bounds: Bounds, scripts: Scripts, s: System, now: real, t: System)
    requires s.pc.AtTop? && s.hand == [] && t == Next(bounds, scripts, s, PollBegin(now))
    ensures var e := Expire(s.sched, now);
      if e.events != [] then t == s.(sched := Drain(e), links := t.links, hand := e.events, pc := Looking)
      else t == s.(sched := e, links := t.links, pc := Polling(0))
  {
  }

  lemma PollEndIs(bounds: Bounds, scripts: Scripts, u: System)
    requires u.pc == Polling(|u.links|) && u.hand == []
    ensures var e := FailPendingWithoutHealthy(u.sched);
      Next(bounds, scripts, u, PollEnd) == u.(sched := Drain(e), hand := e.events, pc := Looking)
  {
  }
}
