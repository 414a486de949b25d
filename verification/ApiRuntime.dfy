/** The API runtime: its tables, its bounded stream queues, and its dispatcher thread: the sections that run without
    interruption, each of which is a step of `StreamSystem`, and the loops made of them. */
module ApiRuntimes {
  import opened Messages
  import opened WorkerModel
  import opened SchedulerSpec
  import opened SchedulerInvariants
  import opened Schedulers
  import opened StreamSystem
  import opened StreamInvariant
  import opened StreamTheorems
  import opened StreamTraces
  import opened StreamPolls
  import opened SchedulerClosing

  /** `queues` are the stream queues, which their consumers keep when the table entry is gone; `batch` and `pc`
      are the local variables and the place of the dispatcher thread. */
  class ApiRuntime {
    const scheduler: Scheduler
    const streamBound: nat
    var futures: set<RequestId>
    var resolved: map<RequestId, Message>
    var streams: set<RequestId>
    var queues: map<RequestId, seq<Message>>
    var closed: bool
    var batch: seq<Message>
    var pc: Dispatcher

    // The runtime is in the state `s`, as far as it holds that state.
    ghost predicate Shows(s: System)
      reads this, scheduler, scheduler.workers
    {
      && scheduler.Valid() && scheduler.Abs() == s.sched
      && futures == s.futures && resolved == s.resolved && streams == s.streams && queues == s.queues
      && closed == s.stopped && batch == s.hand && pc == s.pc
    }

    constructor (scheduler: Scheduler, streamBound: nat, ghost s: System)
      requires scheduler.Valid() && scheduler.Abs() == s.sched && SystemInit(s)
      ensures this.scheduler == scheduler && this.streamBound == streamBound && Shows(s)
    {
      this.scheduler, this.streamBound := scheduler, streamBound;
      futures, resolved, streams, queues, closed, batch, pc := {}, map[], {}, map[], false, [], AtTop;
    }

    /* ---- The callers ---- */

    method Submit(request: Request, now: real, broken: set<nat>, ghost s: System) returns (outcome: Submitted)
      requires Shows(s) && LockFree(s)
      modifies this, scheduler, scheduler.workers
      ensures old(closed) ==> outcome == Rejected(SchedulerClosed) && Shows(s)
      ensures !old(closed) ==> outcome == SchedulerSpec.Submit(s.sched, request, now, broken).1
      ensures !old(closed) ==> Shows(NextSubmit(s, request, now, broken, false))
    {
      if closed { return Rejected(SchedulerClosed); }
      outcome := scheduler.Submit(request, now, broken);
      if !outcome.Rejected? { futures := futures + {request.id}; }
    }

    // A request that is not for a stream is refused.  The new queue is empty.
    method SubmitStream(request: Request, now: real, broken: set<nat>, ghost s: System) returns (outcome: Option<Submitted>)
      requires Shows(s) && LockFree(s) && UntouchedOk(s)
      modifies this, scheduler, scheduler.workers
      ensures outcome.None? <==> !request.stream
      ensures !request.stream || old(closed) ==> Shows(s)
      ensures request.stream && old(closed) ==> outcome == Some(Rejected(SchedulerClosed))
      ensures request.stream && !old(closed) ==>
        && outcome == Some(SchedulerSpec.Submit(s.sched, request, now, broken).1)
        && Shows(NextSubmit(s, request, now, broken, true))
    {
      if !request.stream { return None; }
      if closed { return Some(Rejected(SchedulerClosed)); }
      var submitted := scheduler.Submit(request, now, broken);
      if !submitted.Rejected? {
        streams := streams + {request.id};
        FreshQueue(s, request, now, broken);
        queues := queues[request.id := []];
      }
      outcome := Some(submitted);
    }

    method Cancel(id: RequestId, ghost bounds: Bounds, ghost scripts: Scripts, ghost s: System) returns (outcome: CancelResult)
      requires Shows(s) && LockFree(s)
      modifies this, scheduler, scheduler.workers
      ensures Shows(Next(bounds, scripts, s, CancelRequest(id)))
      ensures outcome == SchedulerSpec.Cancel(s.sched, id).1
    {
      CancelRejects(s.sched, id);
      outcome := scheduler.Cancel(id);
      if outcome.CancelRejected? { return; }
      futures := futures - {id};
      streams := streams - {id};
    }

    // The first part of `close`.
    method SignalStop(ghost s: System)
      requires Shows(s) && LockFree(s)
      modifies this
      ensures Shows(s.(stopped := true))
    {
      closed := true;
    }

    // The second part.  If the scheduler's `close` raises, the tables stay as they are.
    method CloseScheduler(acks: seq<Read>, broken: set<nat>, ghost s: System, ghost links: seq<Link>) returns (raised: bool)
      requires Shows(s) && LockFree(s) && s.stopped && |scheduler.workers| <= |acks|
      modifies this, scheduler, scheduler.workers
      ensures (scheduler.Abs(), raised) == CloseOrRaise(s.sched, broken)
      ensures !raised ==> Shows(s.(sched := Close(s.sched), links := links, futures := {}, streams := {}))
      ensures raised ==> futures == s.futures && streams == s.streams
    {
      raised := scheduler.Close(acks, broken);
      if raised { return; }
      futures, streams := {}, {};
    }

    // A consumer takes a message from its queue.
    method Get(id: RequestId, ghost bounds: Bounds, ghost scripts: Scripts, ghost s: System) returns (m: Option<Message>)
      requires Shows(s)
      modifies this`queues
      ensures m.None? <==> At(s.queues, id) == []
      ensures if m.None? then Shows(s) else m.value == At(s.queues, id)[0] && Shows(Next(bounds, scripts, s, Consume(id)))
    {
      if id !in queues || queues[id] == [] { return None; }
      m := Some(queues[id][0]);
      queues := queues[id := queues[id][1..]];
    }

    /* ---- Everything outside the dispatcher ---- */

    // One step of a caller, a consumer or a child, if it can be taken.
    method Interfere(step: Step, ghost bounds: Bounds, ghost scripts: Scripts, ghost s: System)
        returns (ghost taken: seq<Step>, ghost t: System)
      requires Shows(s) && SystemInv(scripts, s) && LockFree(s) && Outside(step) && Fitting(scripts, step)
      modifies this, scheduler, scheduler.workers
      ensures Shows(t) && Sofar(bounds, scripts, s, taken, t) && t.pc == s.pc && t.hand == s.hand && Own(taken) == 0
    {
      if step.SubmitRequest? {
        taken, t := SubmitFrom(step.request, step.now, step.broken, step.asStream, bounds, scripts, s);
      } else if step.CancelRequest? {
        var outcome := Cancel(step.id, bounds, scripts, s);
        taken, t := [step], Next(bounds, scripts, s, step);
        CancelElsewhere(bounds, scripts, s, step.id, t);
        FirstStep(bounds, scripts, s, step, t);
      } else if step.Consume? {
        var m := Get(step.id, bounds, scripts, s);
        taken, t := if m.None? then [] else [step], if m.None? then s else Next(bounds, scripts, s, step);
        if m.Some? { FirstStep(bounds, scripts, s, step, t); } else { NoStep(bounds, scripts, s); }
      } else if step.StopSignal? {
        SignalStop(s);
        taken, t := [step], s.(stopped := true);
        FirstStep(bounds, scripts, s, step, t);
      } else if step.CloseScheduler? {
        taken, t := CloseFrom(bounds, scripts, s);
      } else {
        taken, t := ChildMoves(bounds, scripts, s, step);
      }
    }

    method SubmitFrom(request: Request, now: real, broken: set<nat>, asStream: bool,
                      ghost bounds: Bounds, ghost scripts: Scripts, ghost s: System)
        returns (ghost taken: seq<Step>, ghost t: System)
      requires Shows(s) && SystemInv(scripts, s) && LockFree(s)
      requires ScriptOk(scripts(request.id), request.id, request.stream)
      modifies this, scheduler, scheduler.workers
      ensures Shows(t) && Sofar(bounds, scripts, s, taken, t) && t.pc == s.pc && t.hand == s.hand && Own(taken) == 0
    {
      taken, t := SubmitMoves(bounds, scripts, s, request, now, broken, asStream);
      if asStream {
        var outcome := SubmitStream(request, now, broken, s);
      } else {
        var outcome := Submit(request, now, broken, s);
      }
    }

    method CloseFrom(ghost bounds: Bounds, ghost scripts: Scripts, ghost s: System) returns (ghost taken: seq<Step>, ghost t: System)
      requires Shows(s) && SystemInv(scripts, s) && LockFree(s)
      modifies this, scheduler, scheduler.workers
      ensures Shows(t) && Sofar(bounds, scripts, s, taken, t) && t.pc == s.pc && t.hand == s.hand && Own(taken) == 0
    {
      if !closed || scheduler.closed {
        taken, t := [], s;
        NoStep(bounds, scripts, s);
        return;
      }
      taken, t := [StreamSystem.CloseScheduler], Next(bounds, scripts, s, StreamSystem.CloseScheduler);
      NothingRefuses(s.sched);
      var acks := seq(|scheduler.workers|, _ => Nothing(true));
      var raised := CloseScheduler(acks, {}, s, t.links);
      FirstStep(bounds, scripts, s, StreamSystem.CloseScheduler, t);
    }

    // A caller, a consumer or a child after the other.
    method Await(outside: seq<Step>, ghost bounds: Bounds, ghost scripts: Scripts, ghost s: System)
        returns (ghost taken: seq<Step>, ghost t: System)
      requires Shows(s) && SystemInv(scripts, s) && LockFree(s) && AllOutside(scripts, outside)
      modifies this, scheduler, scheduler.workers
      ensures Shows(t) && Sofar(bounds, scripts, s, taken, t) && t.pc == s.pc && t.hand == s.hand && Own(taken) == 0
    {
      taken, t := [], s;
      NoStep(bounds, scripts, s);
      for k := 0 to |outside|
        invariant Shows(t) && Sofar(bounds, scripts, s, taken, t) && t.pc == s.pc && t.hand == s.hand && Own(taken) == 0
      {
        ghost var more, u := Interfere(outside[k], bounds, scripts, t);
        FurtherOn(bounds, scripts, s, taken, t, more, u);
        taken, t := taken + more, u;
      }
    }

    /* ---- The dispatcher ---- */

    // The lock is held for the whole poll; what that is in steps says `StreamPolls`.
    method PollOnce(now: real, replies: seq<Reply>, ghost s: System)
      requires Shows(s) && s.pc.AtTop? && s.hand == [] && |scheduler.workers| <= |replies|
      modifies this, scheduler, scheduler.workers
      ensures Shows(AfterPoll(s, now, replies))
    {
      var outcome := scheduler.Poll(now, replies);
      if outcome.Events? { batch, pc := outcome.events, Looking; }
    }

    // Take up the next event of the batch: skip it, resolve a future with it, or go on to its stream queue.
    method Look(ghost s: System)
      requires Shows(s) && s.pc.Looking?
      modifies this`batch, this`pc, this`futures, this`resolved
      ensures Shows(NextLook(s))
    {
      if batch == [] {
        pc := AtTop;
        return;
      }
      var event := batch[0];
      if event.requestId.None? {
        batch := batch[1..];
        return;
      }
      var id := event.requestId.value;
      if Streamable(event.kind) && id in streams {
        pc := Checking;
      } else {
        Resolve(id, event, s);
      }
    }

    // The event is not for a stream.
    method Resolve(id: RequestId, event: Message, ghost s: System)
      requires Shows(s) && s.hand != []
      modifies this`batch, this`futures, this`resolved
      ensures Shows(NextResolve(s, id, event))
    {
      batch := batch[1..];
      if Resolving(event.kind) && id in futures {
        futures, resolved := futures - {id}, resolved[id := event];
      }
    }

    // The put loop, up to the put: a stopped runtime or a stream no longer in the table ends it.
    method Check(ghost s: System)
      requires Shows(s) && Control(s) && s.pc.Checking?
      modifies this`batch, this`pc
      ensures Shows(NextCheck(s))
    {
      var event := batch[0];
      var id := event.requestId.value;
      if closed {
        batch := batch[1..];
        pc := if Terminal(event.kind) then Popping(id) else Looking;
      } else if id !in streams {
        batch, pc := batch[1..], Looking;
      } else {
        pc := Putting;
      }
    }

    // The put: it goes through if there is room in time, and otherwise the loop takes another turn.
    method Put(inTime: bool, ghost s: System)
      requires Shows(s) && Control(s) && s.pc.Putting?
      modifies this`batch, this`pc, this`queues
      ensures Shows(if inTime && |At(s.queues, s.hand[0].requestId.value)| < streamBound then NextPut(s) else s.(pc := Checking))
    {
      var event := batch[0];
      var id := event.requestId.value;
      var waiting := if id in queues then queues[id] else [];
      if inTime && |waiting| < streamBound {
        queues := queues[id := waiting + [event]];
        batch := batch[1..];
        pc := if Terminal(event.kind) then Popping(id) else Looking;
      } else {
        pc := Checking;
      }
    }

    // The time for backpressure is over.
    method GiveUp(ghost s: System)
      requires Shows(s) && Control(s) && s.pc.Putting?
      modifies this`streams, this`pc
      ensures Shows(NextGiveUp(s))
    {
      streams, pc := streams - {batch[0].requestId.value}, Draining;
    }

    // The stream's table entry goes after its last event.
    method Pop(ghost s: System)
      requires Shows(s) && s.pc.Popping?
      modifies this`streams, this`pc
      ensures Shows(s.(streams := s.streams - {s.pc.id}, pc := Looking))
    {
      streams, pc := streams - {pc.id}, Looking;
    }

    // One turn of the loop that empties the queue of a stream given up, or the error that ends it.
    method Drain(ghost s: System)
      requires Shows(s) && Control(s) && s.pc.Draining?
      modifies this`batch, this`pc, this`queues
      ensures Shows(NextDrain(s))
    {
      var id := batch[0].requestId.value;
      var waiting := if id in queues then queues[id] else [];
      if waiting != [] {
        queues := queues[id := waiting[1..]];
      } else {
        queues := queues[id := [Failure(FromApi, id, StreamBackpressureTimeout)]];
        batch, pc := batch[1..], Looking;
      }
    }

    /* ---- Its loops ---- */

    // Others' steps, and the check.
    method CheckTurn(before: seq<Step>, ghost bounds: Bounds, ghost scripts: Scripts, ghost s: System)
        returns (ghost taken: seq<Step>, ghost t: System)
      requires Shows(s) && SystemInv(scripts, s) && s.pc.Checking? && AllOutside(scripts, before)
      modifies this, scheduler, scheduler.workers
      ensures Shows(t) && Sofar(bounds, scripts, s, taken, t) && Own(taken) > 0
      ensures if t.pc.Putting? then t.hand == s.hand else (t.pc.Looking? || t.pc.Popping?) && t.hand == s.hand[1..]
    {
      taken, t := Await(before, bounds, scripts, s);
      ghost var u := CheckMoves(bounds, scripts, t);
      Check(t);
      Further(bounds, scripts, s, taken, t, RouteCheck, u);
      taken, t := taken + [RouteCheck], u;
    }

    // Others' steps, and the next event of the batch.
    method LookTurn(before: seq<Step>, ghost bounds: Bounds, ghost scripts: Scripts, ghost s: System)
        returns (ghost taken: seq<Step>, ghost t: System)
      requires Shows(s) && SystemInv(scripts, s) && s.pc.Looking? && AllOutside(scripts, before)
      modifies this, scheduler, scheduler.workers
      ensures Shows(t) && Sofar(bounds, scripts, s, taken, t) && Own(taken) > 0
      ensures t.pc.Looking? || t.pc.Checking? || (t.pc.AtTop? && t.hand == [])
    {
      taken, t := Await(before, bounds, scripts, s);
      ghost var u := NextLook(t);
      LookPlaces(t, u);
      Look(t);
      Further(bounds, scripts, s, taken, t, RouteLook, u);
      taken, t := taken + [RouteLook], u;
    }

    // One turn of the loop that puts an event.
    method RouteTurn(tick: Tick, ghost bounds: Bounds, ghost scripts: Scripts, ghost s: System)
        returns (ghost taken: seq<Step>, ghost t: System)
      requires Shows(s) && SystemInv(scripts, s) && s.pc.Checking? && bounds.api == streamBound
      requires AllOutside(scripts, tick.before) && AllOutside(scripts, tick.between)
      modifies this, scheduler, scheduler.workers
      ensures Shows(t) && Sofar(bounds, scripts, s, taken, t) && Own(taken) > 0
      ensures if t.pc.Checking? || t.pc.Draining? then t.hand == s.hand
              else (t.pc.Looking? || t.pc.Popping?) && t.hand == s.hand[1..]
    {
      taken, t := CheckTurn(tick.before, bounds, scripts, s);
      if pc.Putting? {
        ghost var more, u := PutTurn(tick, bounds, scripts, t);
        FurtherOn(bounds, scripts, s, taken, t, more, u);
        taken, t := taken + more, u;
      }
    }

    // The part of a turn after its check.
    method PutTurn(tick: Tick, ghost bounds: Bounds, ghost scripts: Scripts, ghost s: System)
        returns (ghost taken: seq<Step>, ghost t: System)
      requires Shows(s) && SystemInv(scripts, s) && s.pc.Putting? && bounds.api == streamBound
      requires AllOutside(scripts, tick.between)
      modifies this, scheduler, scheduler.workers
      ensures Shows(t) && Sofar(bounds, scripts, s, taken, t)
      ensures if t.pc.Checking? || t.pc.Draining? then t.hand == s.hand
              else (t.pc.Looking? || t.pc.Popping?) && t.hand == s.hand[1..]
    {
      taken, t := Await(tick.between, bounds, scripts, s);
      ghost var step, u := PutMoves(bounds, scripts, t, tick.late, tick.inTime);
      if tick.late { GiveUp(t); } else { Put(tick.inTime, t); }
      Further(bounds, scripts, s, taken, t, step, u);
      taken, t := taken + [step], u;
    }

    // Others' steps, and one turn of the loop that empties the queue.
    method DrainTurn(before: seq<Step>, ghost bounds: Bounds, ghost scripts: Scripts, ghost s: System)
        returns (ghost taken: seq<Step>, ghost t: System)
      requires Shows(s) && SystemInv(scripts, s) && s.pc.Draining? && AllOutside(scripts, before)
      modifies this, scheduler, scheduler.workers
      ensures Shows(t) && Sofar(bounds, scripts, s, taken, t) && Own(taken) > 0
      ensures if t.pc.Draining? then t.hand == s.hand else t.pc.Looking? && t.hand == s.hand[1..]
    {
      taken, t := Await(before, bounds, scripts, s);
      ghost var step, u := DrainMoves(bounds, scripts, t);
      Drain(t);
      Further(bounds, scripts, s, taken, t, step, u);
      taken, t := taken + [step], u;
    }

    // Empty the queue of a stream given up, and leave the error in it.
    method DrainQueue(ticks: seq<Tick>, start: nat, ghost bounds: Bounds, ghost scripts: Scripts, ghost s: System)
        returns (next: nat, ghost taken: seq<Step>, ghost t: System)
      requires Shows(s) && SystemInv(scripts, s) && s.pc.Draining? && start <= |ticks| && TicksFit(scripts, ticks)
      modifies this, scheduler, scheduler.workers
      ensures Shows(t) && Sofar(bounds, scripts, s, taken, t) && start <= next <= |ticks| && Own(taken) >= next - start
      ensures if t.pc.Draining? then next == |ticks| && t.hand == s.hand else t.pc.Looking? && t.hand == s.hand[1..]
    {
      next, taken, t := start, [], s;
      NoStep(bounds, scripts, s);
      while next < |ticks| && pc.Draining?
        invariant Shows(t) && Sofar(bounds, scripts, s, taken, t) && start <= next <= |ticks| && Own(taken) >= next - start
        invariant if t.pc.Draining? then t.hand == s.hand else t.pc.Looking? && t.hand == s.hand[1..]
        decreases |ticks| - next
      {
        ghost var more, u := DrainTurn(ticks[next].before, bounds, scripts, t);
        FurtherOn(bounds, scripts, s, taken, t, more, u);
        taken, t := taken + more, u;
        next := next + 1;
      }
    }

    /** `_route_stream_event`, from where it found the stream: whatever callers, consumers and children do between its
        sections, what happens is a run of the request path, and when it returns it is done with the event. */
    method RouteStreamEvent(ticks: seq<Tick>, start: nat, ghost bounds: Bounds, ghost scripts: Scripts, ghost s: System)
        returns (done: bool, next: nat, ghost taken: seq<Step>, ghost t: System)
      requires Shows(s) && SystemInv(scripts, s) && s.pc.Checking? && bounds.api == streamBound
      requires start <= |ticks| && TicksFit(scripts, ticks)
      modifies this, scheduler, scheduler.workers
      ensures Shows(t) && Sofar(bounds, scripts, s, taken, t) && start <= next <= |ticks| && Own(taken) >= next - start
      ensures if done then t.pc.Looking? && t.hand == s.hand[1..] else next == |ticks|
    {
      done, next, taken, t := false, start, [], s;
      NoStep(bounds, scripts, s);
      while next < |ticks| && pc.Checking?
        invariant Shows(t) && Sofar(bounds, scripts, s, taken, t) && start <= next <= |ticks| && Own(taken) >= next - start
        invariant if t.pc.Checking? || t.pc.Draining? then t.hand == s.hand
                  else (t.pc.Looking? || t.pc.Popping?) && t.hand == s.hand[1..]
        decreases |ticks| - next
      {
        ghost var more, u := RouteTurn(ticks[next], bounds, scripts, t);
        FurtherOn(bounds, scripts, s, taken, t, more, u);
        taken, t := taken + more, u;
        next := next + 1;
      }
      if pc.Popping? {
        ghost var u := t.(streams := t.streams - {t.pc.id}, pc := Looking);
        Pop(t);
        Further(bounds, scripts, s, taken, t, RoutePop, u);
        taken, t := taken + [RoutePop], u;
      } else if pc.Draining? {
        ghost var more, u;
        next, more, u := DrainQueue(ticks, next, bounds, scripts, t);
        FurtherOn(bounds, scripts, s, taken, t, more, u);
        taken, t := taken + more, u;
      }
      done := pc.Looking?;
    }

    /** The loop of `_dispatch_loop` over the events of a batch. */
    method RouteBatch(ticks: seq<Tick>, start: nat, ghost bounds: Bounds, ghost scripts: Scripts, ghost s: System)
        returns (done: bool, next: nat, ghost taken: seq<Step>, ghost t: System)
      requires Shows(s) && SystemInv(scripts, s) && s.pc.Looking? && bounds.api == streamBound
      requires start <= |ticks| && TicksFit(scripts, ticks)
      modifies this, scheduler, scheduler.workers
      ensures Shows(t) && Sofar(bounds, scripts, s, taken, t) && start <= next <= |ticks| && Own(taken) >= next - start
      ensures if done then t.pc.AtTop? && t.hand == [] else next == |ticks|
    {
      done, next, taken, t := false, start, [], s;
      NoStep(bounds, scripts, s);
      while next < |ticks| && pc.Looking?
        invariant Shows(t) && Sofar(bounds, scripts, s, taken, t) && start <= next <= |ticks| && Own(taken) >= next - start
        invariant next == |ticks| || t.pc.Looking? || (t.pc.AtTop? && t.hand == [])
        invariant t.pc.AtTop? ==> t.hand == []
        decreases |ticks| - next
      {
        ghost var more, u := LookTurn(ticks[next].before, bounds, scripts, t);
        FurtherOn(bounds, scripts, s, taken, t, more, u);
        taken, t := taken + more, u;
        next := next + 1;
        if pc.Checking? {
          var routed;
          routed, next, more, u := RouteStreamEvent(ticks, next, bounds, scripts, t);
          FurtherOn(bounds, scripts, s, taken, t, more, u);
          taken, t := taken + more, u;
        }
      }
      done := pc.AtTop?;
    }

    /** One turn of `_dispatch_loop`: a poll under the lock, then the events it returned, one after the other.  Whatever the
        workers answer, and whatever callers, consumers and children do between the dispatcher's sections, it is a run of the
        request path; when it comes to its end every event has been dealt with, and until then the dispatcher takes a step
        of its own at every tick.  `turns` are the visits whose answers are `replies`. */
    method DispatchTurn(now: real, replies: seq<Reply>, ticks: seq<Tick>, ghost turns: seq<Turn>,
                        ghost bounds: Bounds, ghost scripts: Scripts, ghost s: System)
        returns (done: bool, ghost taken: seq<Step>, ghost t: System)
      requires Shows(s) && SystemInv(scripts, s) && s.pc.AtTop? && bounds.api == streamBound && TicksFit(scripts, ticks)
      requires |scheduler.workers| == |replies|
      requires var u := Next(bounds, scripts, s, PollBegin(now));
        u.pc.Polling? ==> CanVisit(u, 0, turns) && Matches(u, 0, turns, replies)
      modifies this, scheduler, scheduler.workers
      ensures Shows(t) && Sofar(bounds, scripts, s, taken, t)
      ensures if done then t.pc.AtTop? && t.hand == [] else Own(taken) >= |ticks|
    {
      taken := PollTrace(bounds, scripts, s, now, turns);
      t := PollSteps(bounds, scripts, s, now, turns);
      StepsMakeAPoll(bounds, scripts, s, now, turns, replies);
      PollOnce(now, replies, s);
      done := pc.AtTop?;
      if !done {
        var next;
        ghost var more, u;
        done, next, more, u := RouteBatch(ticks, 0, bounds, scripts, t);
        FurtherOn(bounds, scripts, s, taken, t, more, u);
        taken, t := taken + more, u;
      }
    }
  }

  // What happens around one turn of the dispatcher: the steps of others before it, and before its put, whether the
  // time for backpressure is over then, and whether the put finds room in time.
  datatype Tick = Tick(before: seq<Step>, between: seq<Step>, late: bool, inTime: bool)

  predicate TicksFit(scripts: Scripts, ticks: seq<Tick>) {
    forall k :: 0 <= k < |ticks| ==> AllOutside(scripts, ticks[k].before) && AllOutside(scripts, ticks[k].between)
  }

  // Backends make well-formed scripts of what is submitted.
  predicate Fitting(scripts: Scripts, step: Step) {
    step.SubmitRequest? ==> ScriptOk(scripts(step.request.id), step.request.id, step.request.stream)
  }

  predicate AllOutside(scripts: Scripts, steps: seq<Step>) {
    forall k :: 0 <= k < |steps| ==> Outside(steps[k]) && Fitting(scripts, steps[k])
  }

  lemma FirstStep(bounds: Bounds, scripts: Scripts, s: System, step: Step, t: System)
    requires SystemInv(scripts, s) && Enabled(bounds, scripts, s, step) && t == Next(bounds, scripts, s, step)
    ensures Sofar(bounds, scripts, s, [step], t) && Own([step]) == if Outside(step) then 0 else 1
  {
    OwnOne(step);
    OneStep(bounds, scripts, s, step, t);
    StepKeepsInv(bounds, scripts, s, step);
  }

  // An admission, if it can be tried.
  lemma SubmitMoves(bounds: Bounds, scripts: Scripts, s: System, request: Request, now: real, broken: set<nat>, asStream: bool)
      returns (taken: seq<Step>, t: System)
    requires SystemInv(scripts, s) && LockFree(s) && ScriptOk(scripts(request.id), request.id, request.stream)
    ensures Sofar(bounds, scripts, s, taken, t) && t.pc == s.pc && t.hand == s.hand && Own(taken) == 0
    ensures t == if s.stopped || (asStream && !request.stream) then s else NextSubmit(s, request, now, broken, asStream)
  {
    if s.stopped || (asStream && !request.stream) {
      taken, t := [], s;
      NoStep(bounds, scripts, s);
    } else {
      taken, t := [SubmitRequest(request, now, broken, asStream)], NextSubmit(s, request, now, broken, asStream);
      FirstStep(bounds, scripts, s, SubmitRequest(request, now, broken, asStream), t);
    }
  }

  lemma CancelElsewhere(bounds: Bounds, scripts: Scripts, s: System, id: RequestId, t: System)
    requires LockFree(s) && t == Next(bounds, scripts, s, CancelRequest(id))
    ensures t.pc == s.pc && t.hand == s.hand
  {
  }

  lemma NothingRefuses(s: State)
    requires Inv(s)
    ensures CloseOrRaise(s, {}) == (Close(s), false)
  {
    CloseRaisesIff(s, {});
  }

  lemma LookPlaces(s: System, t: System)
    requires s.pc.Looking? && t == NextLook(s)
    ensures t.pc.Looking? || t.pc.Checking? || (t.pc.AtTop? && t.hand == [])
  {
  }

  lemma CheckMoves(bounds: Bounds, scripts: Scripts, s: System) returns (t: System)
    requires s.pc.Checking? && s.hand != [] && s.hand[0].requestId.Some?
    ensures Enabled(bounds, scripts, s, RouteCheck) && t == Next(bounds, scripts, s, RouteCheck) && t == NextCheck(s)
    ensures if t.pc.Putting? then t.hand == s.hand else (t.pc.Looking? || t.pc.Popping?) && t.hand == s.hand[1..]
  {
    t := NextCheck(s);
  }

  // What the dispatcher does about its event when it gets to the put.
  lemma PutMoves(bounds: Bounds, scripts: Scripts, s: System, late: bool, inTime: bool) returns (step: Step, t: System)
    requires s.pc.Putting? && s.hand != [] && s.hand[0].requestId.Some?
    ensures Enabled(bounds, scripts, s, step) && t == Next(bounds, scripts, s, step)
    ensures t == if late then NextGiveUp(s)
                 else if inTime && |At(s.queues, s.hand[0].requestId.value)| < bounds.api then NextPut(s)
                 else s.(pc := Checking)
    ensures !Outside(step)
    ensures if t.pc.Checking? || t.pc.Draining? then t.hand == s.hand
            else (t.pc.Looking? || t.pc.Popping?) && t.hand == s.hand[1..]
  {
    step := if late then RouteGiveUp
            else if inTime && |At(s.queues, s.hand[0].requestId.value)| < bounds.api then RoutePut else RouteRetry;
    t := Next(bounds, scripts, s, step);
  }

  lemma DrainMoves(bounds: Bounds, scripts: Scripts, s: System) returns (step: Step, t: System)
    requires s.pc.Draining? && s.hand != [] && s.hand[0].requestId.Some?
    ensures Enabled(bounds, scripts, s, step) && t == Next(bounds, scripts, s, step) && t == NextDrain(s) && !Outside(step)
    ensures if t.pc.Draining? then t.hand == s.hand else t.pc.Looking? && t.hand == s.hand[1..]
  {
    step := if At(s.queues, s.hand[0].requestId.value) != [] then DrainOne else DrainDone;
    t := Next(bounds, scripts, s, step);
  }

  // A child's step, if it can be taken.
  lemma ChildMoves(bounds: Bounds, scripts: Scripts, s: System, step: Step) returns (taken: seq<Step>, t: System)
    requires SystemInv(scripts, s)
    requires step.ChildTake? || step.ChildYield? || step.ChildPut? || step.ChildDie? || step.ChildPanic?
    ensures Sofar(bounds, scripts, s, taken, t) && t == s.(links := t.links) && Own(taken) == 0
  {
    if Enabled(bounds, scripts, s, step) {
      taken, t := [step], Next(bounds, scripts, s, step);
      FirstStep(bounds, scripts, s, step, t);
    } else {
      taken, t := [], s;
      NoStep(bounds, scripts, s);
    }
  }

  // No queue is left over from an earlier stream of an accepted id.
  lemma FreshQueue(s: System, request: Request, now: real, broken: set<nat>)
    requires UntouchedOk(s) && !SchedulerSpec.Submit(s.sched, request, now, broken).1.Rejected?
    ensures At(s.queues, request.id) == []
  {
    assert request.id !in s.sched.submitted;
    assert Flow(s, request.id) == [];
  }

  lemma CancelRejects(s: State, id: RequestId)
    ensures SchedulerSpec.Cancel(s, id).1.CancelRejected? ==> SchedulerSpec.Cancel(s, id).0 == s
  {
  }
}
