/** The whole request path as a transition system: child processes, their pipes and bounded result
    queues, the scheduler, the dispatcher thread of the API runtime, the bounded stream queues and their
    consumers.  Each step is atomic; any step that is enabled may come next. */
module StreamSystem {
  import opened Messages
  import opened WorkerModel
  import opened SchedulerSpec

  // What the backend of a child makes of each request: the messages it puts on the result queue.
  type Scripts = RequestId -> seq<Message>

  // A child waits for a command, or works on a request: `held` is the message it is trying to put,
  // `todo` those it has yet to produce.
  datatype Child = Waiting | Working(id: RequestId, held: seq<Message>, todo: seq<Message>)

  // The channel between the parent and one child: commands down, messages up.
  datatype Link = Link(control: seq<RequestId>, results: seq<Message>, child: Child, alive: bool)

  // Where the dispatcher thread is.  While `Polling` it holds the runtime's lock.
  datatype Dispatcher =
    | AtTop
    | Polling(next: nat)
    | Looking
    | Checking
    | Putting
    | Popping(id: RequestId)
    | Draining

  // `lost` and `abandoned` are history: the ids of which the runtime has discarded a message, and those of the
  // streams it has given up because their consumers were too slow.
  datatype System = System(
    sched: State,
    links: seq<Link>,
    pc: Dispatcher,
    hand: seq<Message>,
    futures: set<RequestId>,
    resolved: map<RequestId, Message>,
    streams: set<RequestId>,
    queues: map<RequestId, seq<Message>>,
    consumed: map<RequestId, seq<Message>>,
    lost: set<RequestId>,
    abandoned: set<RequestId>,
    stopped: bool)

  datatype Bounds = Bounds(ipc: nat, api: nat)

  // What one read of a result queue meets.
  datatype Look = TakeHead | SeeNothing | SeeExit | SeeUnreadable | SeeForeign

  datatype Step =
    | ChildTake(w: nat)
    | ChildYield(w: nat)
    | ChildPut(w: nat)
    | ChildDie(w: nat)
    | ChildPanic(w: nat)
    | SubmitRequest(request: Request, now: real, broken: set<nat>, asStream: bool)
    | CancelRequest(id: RequestId)
    | PollBegin(now: real)
    | Visit(look: Look, at: real, broken: set<nat>)
    | PollEnd
    | RouteLook
    | RouteCheck
    | RoutePut
    | RouteRetry
    | RoutePop
    | RouteGiveUp
    | DrainOne
    | DrainDone
    | Consume(id: RequestId)
    | StopSignal
    | CloseScheduler

  /* ---- Well-formed behaviour of a backend ---- */

  // Some messages that do not end the request, then one that does, all carrying its id.
  predicate ScriptOk(script: seq<Message>, id: RequestId, stream: bool) {
    && script != []
    && (forall k :: 0 <= k < |script| ==> script[k].requestId == Some(id))
    && (forall k :: 0 <= k < |script| - 1 ==> script[k].kind.StreamChunk? && stream)
    && (var last := script[|script| - 1].kind; last.Error? || (if stream then last.StreamEnd? else last.Result?))
  }

  /* ---- Parts of the state ---- */

  function At(m: map<RequestId, seq<Message>>, id: RequestId): seq<Message> {
    if id in m then m[id] else []
  }

  function Anonymous(w: nat): Message {
    Message(Error, FromWorker(w), None, Fault(BackendFailed), 0)
  }

  const DEAD_LINK := Link([], [], Waiting, false)

  // The links after the scheduler went from running `before` to running `after`: a worker that lost its
  // request was terminated, one that gained a request was sent it.
  function Relink(links: seq<Link>, before: map<nat, RequestId>, after: map<nat, RequestId>): (r: seq<Link>)
    ensures |r| == |links|
  {
    seq(|links|, i requires 0 <= i < |links| => RelinkOne(links[i], i, before, after))
  }

  function RelinkOne(link: Link, i: nat, before: map<nat, RequestId>, after: map<nat, RequestId>): Link {
    if i in before && i !in after then DEAD_LINK
    else if i !in before && i in after then link.(control := link.control + [after[i]])
    else link
  }

  // A kind that `_route_stream_event` handles.
  predicate Streamable(kind: Kind) {
    kind.StreamChunk? || kind.StreamEnd? || kind.Error? || kind.Cancelled?
  }

  predicate Resolving(kind: Kind) {
    kind.Result? || kind.Error? || kind.Cancelled?
  }

  predicate LockFree(s: System) {
    !s.pc.Polling?
  }

  // A poll by the dispatcher may visit worker `i` next.
  predicate AtWorker(s: System, i: nat) {
    s.pc == Polling(i) && i < |s.links| && |s.links| == |s.sched.workers|
  }

  predicate CanLook(link: Link, look: Look) {
    (look.TakeHead? ==> link.results != []) && (look.SeeExit? ==> !link.alive)
  }

  function ReadOf(link: Link, look: Look): Read
    requires CanLook(link, look)
  {
    match look
    case TakeHead => Got(link.results[0])
    case SeeNothing => Nothing(true)
    case SeeExit => Nothing(false)
    case SeeUnreadable => Unreadable
    case SeeForeign => Foreign
  }

  /* ---- Which steps may happen ---- */

  predicate Enabled(bounds: Bounds, scripts: Scripts, s: System, step: Step) {
    match step
    case ChildTake(w) => w < |s.links| && s.links[w].alive && s.links[w].child.Waiting? && s.links[w].control != []
    case ChildYield(w) =>
      w < |s.links| && s.links[w].alive && s.links[w].child.Working? && s.links[w].child.held == [] && s.links[w].child.todo != []
    case ChildPut(w) =>
      w < |s.links| && s.links[w].alive && s.links[w].child.Working? && s.links[w].child.held != []
      && |s.links[w].results| < bounds.ipc
    case ChildDie(w) => w < |s.links| && s.links[w].alive
    case ChildPanic(w) => w < |s.links| && s.links[w].alive && |s.links[w].results| < bounds.ipc
    case SubmitRequest(request, now, broken, asStream) =>
      LockFree(s) && !s.stopped && (asStream ==> request.stream)
      && ScriptOk(scripts(request.id), request.id, request.stream)
    case CancelRequest(id) => LockFree(s)
    case PollBegin(now) => s.pc.AtTop?
    case Visit(look, at, broken) => s.pc.Polling? && AtWorker(s, s.pc.next) && CanLook(s.links[s.pc.next], look)
    case PollEnd => s.pc == Polling(|s.links|)
    case RouteLook => s.pc.Looking?
    case RouteCheck => s.pc.Checking? && s.hand != []
    case RoutePut =>
      s.pc.Putting? && s.hand != [] && s.hand[0].requestId.Some? && |At(s.queues, s.hand[0].requestId.value)| < bounds.api
    case RouteRetry => s.pc.Putting?
    case RoutePop => s.pc.Popping?
    case RouteGiveUp => s.pc.Putting? && s.hand != [] && s.hand[0].requestId.Some?
    case DrainOne => s.pc.Draining? && s.hand != [] && s.hand[0].requestId.Some? && At(s.queues, s.hand[0].requestId.value) != []
    case DrainDone => s.pc.Draining? && s.hand != [] && s.hand[0].requestId.Some? && At(s.queues, s.hand[0].requestId.value) == []
    case Consume(id) => At(s.queues, id) != []
    case StopSignal => LockFree(s)
    case CloseScheduler => LockFree(s) && s.stopped && !s.sched.closed
  }

  predicate OfChild(step: Step) {
    step.ChildTake? || step.ChildYield? || step.ChildPut? || step.ChildDie? || step.ChildPanic?
  }

  // The steps that move the scheduler.
  predicate OfScheduler(step: Step) {
    step.SubmitRequest? || step.CancelRequest? || step.PollBegin? || step.Visit? || step.PollEnd? || step.CloseScheduler?
  }

  /* ---- What the steps do ---- */

  function Next(bounds: Bounds, scripts: Scripts, s: System, step: Step): System
    requires Enabled(bounds, scripts, s, step)
  {
    match step
    case ChildTake(w) => SetLink(s, w, TakenCommand(scripts, s.links[w]))
    case ChildYield(w) => SetLink(s, w, Yielded(s.links[w]))
    case ChildPut(w) => SetLink(s, w, PutLink(s.links[w]))
    case ChildDie(w) => SetLink(s, w, s.links[w].(alive := false))
    case ChildPanic(w) => SetLink(s, w, Panicked(s.links[w], w))
    case SubmitRequest(request, now, broken, asStream) => NextSubmit(s, request, now, broken, asStream)
    case CancelRequest(id) => NextCancel(s, id)
    case PollBegin(now) => NextPollBegin(s, now)
    case Visit(look, at, broken) => NextVisit(s, s.pc.next, look, at, broken)
    case PollEnd => NextPollEnd(s)
    case RouteLook => NextLook(s)
    case RouteCheck => NextCheck(s)
    case RoutePut => NextPut(s)
    case RouteRetry => s.(pc := Checking)
    case RoutePop => s.(streams := s.streams - {s.pc.id}, pc := Looking)
    case RouteGiveUp => NextGiveUp(s)
    case DrainOne => NextDrain(s)
    case DrainDone => NextDrain(s)
    case Consume(id) => NextConsume(s, id)
    case StopSignal => s.(stopped := true)
    case CloseScheduler => NextClose(s)
  }

  // The child receives a command.
  function TakenCommand(scripts: Scripts, link: Link): Link
    requires link.control != []
  {
    var id := link.control[0];
    link.(control := link.control[1..], child := Working(id, [], scripts(id)))
  }

  // The backend produces its next message.
  function Yielded(link: Link): Link
    requires link.child.Working? && link.child.todo != []
  {
    link.(child := link.child.(held := [link.child.todo[0]], todo := link.child.todo[1..]))
  }

  // The child's put goes through.
  function PutLink(link: Link): Link
    requires link.child.Working?
  {
    link.(results := link.results + link.child.held,
          child := if link.child.todo == [] then Waiting else link.child.(held := []))
  }

  // The child's last resort: an error that names no request, and the end of the process.
  function Panicked(link: Link, w: nat): Link {
    link.(results := link.results + [Anonymous(w)], alive := false)
  }

  function SetLink(s: System, w: nat, link: Link): System
    requires w < |s.links|
  {
    s.(links := s.links[w := link])
  }

  function NextSubmit(s: System, request: Request, now: real, broken: set<nat>, asStream: bool): System {
    var (r, outcome) := Submit(s.sched, request, now, broken);
    if outcome.Rejected? then s.(sched := r)
    else
      var s1 := s.(sched := r, links := Relink(s.links, s.sched.active, r.active));
      if asStream then s1.(streams := s.streams + {request.id}, queues := s.queues[request.id := At(s.queues, request.id)])
      else s1.(futures := s.futures + {request.id})
  }

  function NextCancel(s: System, id: RequestId): System {
    var (r, outcome) := Cancel(s.sched, id);
    if outcome.CancelRejected? then s
    else s.(sched := r, links := Relink(s.links, s.sched.active, r.active), futures := s.futures - {id}, streams := s.streams - {id})
  }

  function NextPollBegin(s: System, now: real): System {
    var r := Expire(s.sched, now);
    var links := Relink(s.links, s.sched.active, r.active);
    if r.events != [] then s.(sched := Drain(r), links := links, hand := s.hand + r.events, pc := Looking)
    else s.(sched := r, links := links, pc := Polling(0))
  }

  function NextPollEnd(s: System): System {
    var r := FailPendingWithoutHealthy(s.sched);
    s.(sched := Drain(r), hand := s.hand + r.events, pc := Looking)
  }

  function NextClose(s: System): System {
    var r := Close(s.sched);
    s.(sched := r, links := Relink(s.links, s.sched.active, r.active), futures := {}, streams := {})
  }

  function NextConsume(s: System, id: RequestId): System
    requires At(s.queues, id) != []
  {
    s.(queues := s.queues[id := At(s.queues, id)[1..]],
       consumed := s.consumed[id := At(s.consumed, id) + [At(s.queues, id)[0]]])
  }

  // The read took the request away from its worker.
  predicate EndsRequest(received: Received) {
    received.Broke? || (received.Delivered? && Terminal(received.message.kind))
  }

  function NextVisit(s: System, i: nat, look: Look, at: real, broken: set<nat>): System
    requires AtWorker(s, i) && CanLook(s.links[i], look)
  {
    if i !in s.sched.active then s.(pc := Polling(i + 1))
    else
      var reply := Reply(ReadOf(s.links[i], look), at, broken);
      var ended := EndsRequest(Receive(s.sched.workers[i], reply.read).1);
      var (r, raised) := PollWorker(s.sched, i, reply);
      var running := if ended then s.sched.active - {i} else s.sched.active;
      s.(sched := r,
         links := Relink(AfterLook(s.links, i, look), running, r.active),
         pc := if raised then AtTop else Polling(i + 1))
  }

  function AfterLook(links: seq<Link>, i: nat, look: Look): seq<Link>
    requires i < |links| && CanLook(links[i], look)
  {
    if look.TakeHead? then links[i := links[i].(results := links[i].results[1..])] else links
  }

  // The dispatcher takes up the next event of its batch.
  function NextLook(s: System): System {
    if s.hand == [] then s.(pc := AtTop)
    else
      var m := s.hand[0];
      if m.requestId.None? then s.(hand := s.hand[1..])
      else if Streamable(m.kind) && m.requestId.value in s.streams then s.(pc := Checking)
      else NextResolve(s, m.requestId.value, m)
  }

  // The head of the batch is not for a stream: it resolves a future, or nothing comes of it.
  function NextResolve(s: System, id: RequestId, m: Message): System
    requires s.hand != []
  {
    var s1 := s.(hand := s.hand[1..], lost := s.lost + {id});
    if Resolving(m.kind) && id in s.futures then s1.(futures := s.futures - {id}, resolved := s.resolved[id := m]) else s1
  }

  // One turn of the put loop, up to the put.
  function NextCheck(s: System): System
    requires s.hand != []
  {
    var m := s.hand[0];
    if m.requestId.None? then s.(hand := s.hand[1..], pc := Looking)
    else
      var id := m.requestId.value;
      if s.stopped then
        s.(hand := s.hand[1..], lost := s.lost + {id}, pc := if Terminal(m.kind) then Popping(id) else Looking)
      else if id !in s.streams then s.(hand := s.hand[1..], lost := s.lost + {id}, pc := Looking)
      else s.(pc := Putting)
  }

  // The put goes through.
  function NextPut(s: System): System
    requires s.hand != [] && s.hand[0].requestId.Some?
  {
    var id := s.hand[0].requestId.value;
    s.(queues := s.queues[id := At(s.queues, id) + [s.hand[0]]],
       hand := s.hand[1..],
       pc := if Terminal(s.hand[0].kind) then Popping(id) else Looking)
  }

  // The time for backpressure is over.  The stream may have been cancelled since the last check.
  function NextGiveUp(s: System): System
    requires s.hand != [] && s.hand[0].requestId.Some?
  {
    var id := s.hand[0].requestId.value;
    s.(streams := s.streams - {id}, lost := s.lost + {id}, abandoned := s.abandoned + {id}, pc := Draining)
  }

  // One message less in the queue of a stream given up, or the error that takes their place.
  function NextDrain(s: System): System
    requires s.hand != [] && s.hand[0].requestId.Some?
  {
    var id := s.hand[0].requestId.value;
    if At(s.queues, id) != [] then s.(queues := s.queues[id := At(s.queues, id)[1..]])
    else s.(queues := s.queues[id := [Failure(FromApi, id, StreamBackpressureTimeout)]], hand := s.hand[1..], pc := Looking)
  }

  // The other steps leave the scheduler alone, and take at most the head of the batch.
  lemma LocalParts(bounds: Bounds, scripts: Scripts, s: System, step: Step)
    requires Enabled(bounds, scripts, s, step) && !OfScheduler(step)
    ensures var s' := Next(bounds, scripts, s, step);
      && s'.sched == s.sched && |s'.links| == |s.links| && (s'.pc == s.pc || (!s.pc.Polling? && !s'.pc.Polling?))
      && (s'.hand == s.hand || (s.hand != [] && s'.hand == s.hand[1..]))
      && (!step.RouteLook? ==> s'.futures == s.futures && s'.resolved == s.resolved)
      && (!OfChild(step) ==> s'.links == s.links)
  {
    if OfChild(step) {
      ChildParts(bounds, scripts, s, step);
    } else if step.RouteLook? {
      LookParts(s, NextLook(s));
    } else if step.RouteCheck? {
      CheckParts(s, NextCheck(s));
    }
  }

  lemma ChildParts(bounds: Bounds, scripts: Scripts, s: System, step: Step)
    requires Enabled(bounds, scripts, s, step) && OfChild(step)
    ensures var s' := Next(bounds, scripts, s, step); s' == s.(links := s'.links) && |s'.links| == |s.links|
  {
  }

  lemma LookParts(s: System, s': System)
    requires s.pc.Looking? && s' == NextLook(s)
    ensures s' == s.(hand := s'.hand, pc := s'.pc, futures := s'.futures, resolved := s'.resolved, lost := s'.lost)
    ensures s'.pc.AtTop? || s'.pc.Looking? || s'.pc.Checking?
    ensures s'.hand == if s.hand == [] || s'.pc.Checking? then s.hand else s.hand[1..]
  {
  }

  lemma CheckParts(s: System, s': System)
    requires s.pc.Checking? && s.hand != [] && s' == NextCheck(s)
    ensures s' == s.(hand := s'.hand, pc := s'.pc, lost := s'.lost)
    ensures s'.pc.Looking? || s'.pc.Putting? || s'.pc.Popping?
    ensures s'.hand == if s'.pc.Putting? then s.hand else s.hand[1..]
  {
  }

  /* ---- Runs ---- */

  ghost predicate IsRun(bounds: Bounds, scripts: Scripts, s: System, steps: seq<Step>, r: System)
    decreases |steps|
  {
    if steps == [] then r == s
    else Enabled(bounds, scripts, s, steps[0]) && IsRun(bounds, scripts, Next(bounds, scripts, s, steps[0]), steps[1..], r)
  }
}
