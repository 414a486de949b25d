/** What every small step and every operation of the scheduler keeps. */
module SchedulerInvariants {
  import opened Messages
  import opened WorkerModel
  import opened SchedulerSpec

  /* ---- How often a request is in each place ---- */

  function One(place: Option<RequestId>, id: RequestId): nat {
    if place == Some(id) then 1 else 0
  }

  function RunningId(w: Worker): Option<RequestId> {
    if w.state.Busy? then w.activeId else None
  }

  function TerminalId(m: Message): Option<RequestId> {
    if Terminal(m.kind) then m.requestId else None
  }

  function InQueue(pending: seq<Pending>, id: RequestId): nat {
    if pending == [] then 0 else One(Some(pending[0].request.id), id) + InQueue(pending[1..], id)
  }

  function Running(ws: seq<Worker>, id: RequestId): nat {
    if ws == [] then 0 else One(RunningId(ws[0]), id) + Running(ws[1..], id)
  }

  function Reported(ms: seq<Message>, id: RequestId): nat {
    if ms == [] then 0 else Reported(ms[..|ms| - 1], id) + One(TerminalId(ms[|ms| - 1]), id)
  }

  function Occurrences(ids: seq<RequestId>, id: RequestId): nat {
    if ids == [] then 0 else Occurrences(ids[..|ids| - 1], id) + One(Some(ids[|ids| - 1]), id)
  }

  lemma {:induction false} InQueueConcat(a: seq<Pending>, b: seq<Pending>, id: RequestId)
    ensures InQueue(a + b, id) == InQueue(a, id) + InQueue(b, id)
  {
    if a == [] {
      assert a + b == b;
    } else {
      assert (a + b)[1..] == a[1..] + b;
      InQueueConcat(a[1..], b, id);
    }
  }

  lemma {:induction false} RunningUpdate(ws: seq<Worker>, i: nat, w: Worker, id: RequestId)
    requires i < |ws|
    ensures Running(ws[i := w], id) + One(RunningId(ws[i]), id) == Running(ws, id) + One(RunningId(w), id)
  {
    if i > 0 {
      assert ws[i := w][1..] == ws[1..][i - 1 := w];
      RunningUpdate(ws[1..], i - 1, w, id);
    } else {
      assert ws[i := w][1..] == ws[1..];
    }
  }

  lemma {:induction false} OneRunning(ws: seq<Worker>, i: nat, id: RequestId)
    requires i < |ws| && RunningId(ws[i]) == Some(id)
    ensures Running(ws, id) >= 1
  {
    if i > 0 { OneRunning(ws[1..], i - 1, id); }
  }

  lemma {:induction false} TwoRunning(ws: seq<Worker>, i: nat, j: nat, id: RequestId)
    requires i < |ws| && j < |ws| && i != j && RunningId(ws[i]) == Some(id) && RunningId(ws[j]) == Some(id)
    ensures Running(ws, id) >= 2
  {
    if i == 0 { OneRunning(ws[1..], j - 1, id); }
    else if j == 0 { OneRunning(ws[1..], i - 1, id); }
    else { TwoRunning(ws[1..], i - 1, j - 1, id); }
  }

  lemma ReportedAppend(ms: seq<Message>, m: Message, id: RequestId)
    ensures Reported(ms + [m], id) == Reported(ms, id) + One(TerminalId(m), id)
  {
    assert (ms + [m])[..|ms|] == ms;
  }

  lemma OccurrencesAppend(ids: seq<RequestId>, x: RequestId, id: RequestId)
    ensures Occurrences(ids + [x], id) == Occurrences(ids, id) + One(Some(x), id)
  {
    assert (ids + [x])[..|ids|] == ids;
  }

  /* ---- The invariant ---- */

  // The `active` map is exact: its keys are the busy workers, its values their active ids.
  ghost predicate Shape(s: State) {
    && (forall i :: 0 <= i < |s.workers| ==>
          s.workers[i].state in {WorkerState.Ready, Busy, Stopped, WorkerState.Failed})
    && (forall i: nat :: i in s.active <==> i < |s.workers| && s.workers[i].state.Busy?)
    && (forall i: nat :: i in s.active ==> s.workers[i].activeId == Some(s.active[i]))
    && s.started.Keys == s.active.Keys
    && |s.pending| <= s.config.maxPending
  }

  function Accounted(s: State, id: RequestId): nat {
    InQueue(s.pending, id) + Running(s.workers, id) + Reported(s.log.reports, id) + Occurrences(s.log.dropped, id)
  }

  // Every admitted request is in exactly one of four places, once; no other id is in any.
  ghost predicate Conserved(s: State) {
    forall id :: Accounted(s, id) == if id in s.submitted then 1 else 0
  }

  // The admission log lists the submitted ids, once each.
  ghost predicate AdmittedOnce(s: State) {
    forall id :: Occurrences(s.log.admitted, id) == if id in s.submitted then 1 else 0
  }

  ghost predicate Core(s: State) {
    Shape(s) && Conserved(s) && AdmittedOnce(s)
  }

  ghost predicate Inv(s: State) {
    && Core(s)
    && (s.closed ==> s.pending == [] && s.active == map[])
  }

  /* ---- The small steps keep it ---- */

  // A step that moves requests between places keeps the invariant when each id stays accounted for.
  lemma MoveKeeps(s: State, s': State)
    requires Core(s) && Shape(s')
    requires s'.submitted == s.submitted && s'.log.admitted == s.log.admitted
    requires forall id :: Accounted(s', id) == Accounted(s, id)
    ensures Core(s')
  {
  }

  lemma RetireHeadKeeps(s: State, m: Message)
    requires Core(s) && s.pending != []
    requires Terminal(m.kind) && m.requestId == Some(s.pending[0].request.id)
    ensures Core(RetireHead(s, m))
  {
    var s' := RetireHead(s, m);
    forall id ensures Accounted(s', id) == Accounted(s, id) {
      ReportedAppend(s.log.reports, m, id);
    }
    MoveKeeps(s, s');
  }

  // Worker `i` gives up its request, which is reported or dropped.
  lemma GiveUpKeeps(s: State, i: nat, w: Worker, s': State)
    requires Core(s) && i in s.active
    requires w.state in {WorkerState.Ready, Stopped, WorkerState.Failed}
    requires s' == Release(s, i, w).(events := s'.events, log := s'.log)
    requires s'.log.admitted == s.log.admitted
    requires forall id :: Reported(s'.log.reports, id) + Occurrences(s'.log.dropped, id)
                       == Reported(s.log.reports, id) + Occurrences(s.log.dropped, id) + One(Some(s.active[i]), id)
    ensures Core(s')
  {
    forall id ensures Accounted(s', id) == Accounted(s, id) {
      RunningUpdate(s.workers, i, w, id);
    }
    MoveKeeps(s, s');
  }

  lemma AssignHeadKeeps(s: State, i: nat, now: real)
    requires Core(s) && s.pending != [] && i < |s.workers| && s.workers[i].state.Ready?
    ensures Core(AssignHead(s, i, now))
  {
    var s' := AssignHead(s, i, now);
    forall id ensures Accounted(s', id) == Accounted(s, id) {
      RunningUpdate(s.workers, i, Worker(Busy, Some(s.pending[0].request.id)), id);
    }
    MoveKeeps(s, s');
  }

  lemma LoseHeadKeeps(s: State, i: nat)
    requires Core(s) && s.pending != [] && i < |s.workers| && s.workers[i].state.Ready?
    ensures Core(LoseHead(s, i))
  {
    var s' := LoseHead(s, i);
    forall id ensures Accounted(s', id) == Accounted(s, id) {
      RunningUpdate(s.workers, i, s.workers[i].(state := WorkerState.Failed), id);
      OccurrencesAppend(s.log.dropped, s.pending[0].request.id, id);
    }
    MoveKeeps(s, s');
  }

  lemma FinishKeeps(s: State, i: nat, w: Worker, m: Message)
    requires Core(s) && i in s.active && w.state.Ready?
    requires Terminal(m.kind) && (m.requestId == None || m.requestId == Some(s.active[i]))
    ensures Core(Finish(s, i, w, m))
  {
    var s' := Finish(s, i, w, m);
    forall id ensures Reported(s'.log.reports, id) + Occurrences(s'.log.dropped, id)
                   == Reported(s.log.reports, id) + Occurrences(s.log.dropped, id) + One(Some(s.active[i]), id)
    {
      ReportedAppend(s.log.reports, m, id);
      OccurrencesAppend(s.log.dropped, s.active[i], id);
    }
    GiveUpKeeps(s, i, w, s');
  }

  lemma ReportActiveKeeps(s: State, i: nat, w: Worker, m: Message)
    requires Core(s) && i in s.active && w.state in {WorkerState.Ready, Stopped, WorkerState.Failed}
    requires Terminal(m.kind) && m.requestId == Some(s.active[i])
    ensures Core(Emit(Release(s, i, w), m)) && Core(Record(Release(s, i, w), m))
  {
    forall id ensures Reported(s.log.reports + [m], id) == Reported(s.log.reports, id) + One(Some(s.active[i]), id) {
      ReportedAppend(s.log.reports, m, id);
    }
    GiveUpKeeps(s, i, w, Emit(Release(s, i, w), m));
    GiveUpKeeps(s, i, w, Record(Release(s, i, w), m));
  }

  /* ---- The loops keep it ---- */

  lemma {:induction false} ExpireHeadsKeeps(s: State, now: real, timeout: real)
    requires Core(s)
    ensures Core(ExpireHeads(s, now, timeout))
    decreases |s.pending|
  {
    if s.pending != [] && Overdue(s.pending[0], now, timeout) {
      var m := Failure(FromScheduler, s.pending[0].request.id, QueueTimeout);
      RetireHeadKeeps(s, m);
      ExpireHeadsKeeps(RetireHead(s, m), now, timeout);
    }
  }

  lemma ExpirePendingKeeps(s: State, now: real)
    requires Core(s)
    ensures Core(ExpirePending(s, now))
  {
    if s.config.queueTimeout.Some? { ExpireHeadsKeeps(s, now, s.config.queueTimeout.value); }
  }

  lemma {:induction false} FailHeadsKeeps(s: State)
    requires Core(s)
    ensures Core(FailHeads(s)) && FailHeads(s).pending == []
    decreases |s.pending|
  {
    if s.pending != [] {
      var m := Failure(FromScheduler, s.pending[0].request.id, NoHealthyWorker);
      RetireHeadKeeps(s, m);
      FailHeadsKeeps(RetireHead(s, m));
    }
  }

  lemma FailPendingKeeps(s: State)
    requires Core(s)
    ensures Core(FailPendingWithoutHealthy(s))
  {
    FailHeadsKeeps(s);
  }

  lemma ExpireWorkerKeeps(s: State, i: nat, now: real, timeout: real)
    requires Core(s) && i < |s.workers|
    ensures Core(ExpireWorker(s, i, now, timeout))
  {
    if i in s.active {
      var w := CancelActive(s.workers[i]).0;
      ReportActiveKeeps(s, i, w, Failure(FromWorker(i), s.active[i], InferenceTimeout));
    }
  }

  lemma {:induction false} ExpireActiveFromKeeps(s: State, i: nat, now: real, timeout: real)
    requires Core(s) && i <= |s.workers|
    ensures Core(ExpireActiveFrom(s, i, now, timeout))
    decreases |s.workers| - i
  {
    if i < |s.workers| {
      ExpireWorkerKeeps(s, i, now, timeout);
      ExpireActiveFromKeeps(ExpireWorker(s, i, now, timeout), i + 1, now, timeout);
    }
  }

  lemma ExpireKeeps(s: State, now: real)
    requires Core(s)
    ensures Core(ExpireActive(s, now)) && Core(Expire(s, now))
  {
    if s.config.maxInference.Some? {
      ExpireActiveFromKeeps(s, 0, now, s.config.maxInference.value);
      FailPendingKeeps(ExpireActiveFrom(s, 0, now, s.config.maxInference.value));
    }
    ExpirePendingKeeps(ExpireActive(s, now), now);
  }

  lemma {:induction false} DispatchLoopKeeps(s: State, now: real, broken: set<nat>)
    requires Core(s)
    ensures Core(DispatchLoop(s, now, broken).0)
    decreases |s.pending|
  {
    if s.pending != [] && BelowCap(s) {
      var i := FirstReady(s.workers);
      if i < |s.workers| {
        if i in broken {
          LoseHeadKeeps(s, i);
        } else {
          AssignHeadKeeps(s, i, now);
          DispatchLoopKeeps(AssignHead(s, i, now), now, broken);
        }
      }
    }
  }

  lemma DispatchPendingKeeps(s: State, now: real, broken: set<nat>)
    requires Core(s)
    ensures Core(DispatchPending(s, now, broken).0)
  {
    ExpirePendingKeeps(s, now);
    DispatchLoopKeeps(ExpirePending(s, now), now, broken);
  }

  lemma PollWorkerKeeps(s: State, i: nat, reply: Reply)
    requires Core(s) && i < |s.workers|
    ensures Core(PollWorker(s, i, reply).0)
  {
    if i in s.active {
      var (w, received) := Receive(s.workers[i], reply.read);
      match received
      case NotBusy =>
      case TimedOut =>
      case Broke(code) => ReportActiveKeeps(s, i, w, Failure(FromWorker(i), s.active[i], code));
      case Delivered(m) =>
        if Terminal(m.kind) {
          FinishKeeps(s, i, w, m);
          DispatchPendingKeeps(Finish(s, i, w, m), reply.at, reply.broken);
        } else {
          assert s.workers[i := w] == s.workers;
          forall id ensures Reported(s.log.reports + [m], id) == Reported(s.log.reports, id) {
            ReportedAppend(s.log.reports, m, id);
          }
        }
    }
  }

  lemma {:induction false} PollFromKeeps(s: State, i: nat, replies: seq<Reply>)
    requires Core(s) && i <= |s.workers| <= |replies|
    ensures Core(PollFrom(s, i, replies).0)
    decreases |s.workers| - i
  {
    if i < |s.workers| {
      PollWorkerKeeps(s, i, replies[i]);
      var (s1, raised) := PollWorker(s, i, replies[i]);
      if !raised { PollFromKeeps(s1, i + 1, replies); }
    }
  }

  lemma {:induction false} CancelHeadsKeeps(s: State)
    requires Core(s)
    ensures Core(CancelHeads(s)) && CancelHeads(s).pending == []
    ensures CancelHeads(s).workers == s.workers && CancelHeads(s).active == s.active
    decreases |s.pending|
  {
    if s.pending != [] {
      var m := Message(Cancelled, FromScheduler, Some(s.pending[0].request.id), StageShutdown, 0);
      RetireHeadKeeps(s, m);
      CancelHeadsKeeps(RetireHead(s, m));
    }
  }

  /* ---- The operations keep it ---- */

  // A freshly built scheduler: every worker ready, nothing known yet.
  ghost predicate Init(s: State) {
    && |s.workers| > 0
    && (forall i :: 0 <= i < |s.workers| ==> s.workers[i].state.Ready?)
    && s.config.maxPending > 0
    && (s.config.maxConcurrent.Some? ==> s.config.maxConcurrent.value > 0)
    && s.pending == [] && s.active == map[] && s.started == map[] && s.submitted == {} && s.events == []
    && !s.closed
    && s.log == Log([], [], [], [], [], [])
  }

  lemma {:induction false} NothingRuns(ws: seq<Worker>, id: RequestId)
    requires forall i :: 0 <= i < |ws| ==> !ws[i].state.Busy?
    ensures Running(ws, id) == 0
  {
    if ws != [] { NothingRuns(ws[1..], id); }
  }

  lemma InitInv(s: State)
    requires Init(s)
    ensures Inv(s)
  {
    forall id ensures Accounted(s, id) == 0 { NothingRuns(s.workers, id); }
  }

  // Admitting a fresh id keeps the invariant when exactly that id gains a place.
  lemma AdmitKeeps(s: State, id: RequestId, s': State)
    requires Core(s) && id !in s.submitted && Shape(s')
    requires s'.submitted == s.submitted + {id} && s'.log.admitted == s.log.admitted + [id]
    requires forall x :: Accounted(s', x) == Accounted(s, x) + One(Some(id), x)
    ensures Core(s')
  {
    forall x ensures Occurrences(s'.log.admitted, x) == Occurrences(s.log.admitted, x) + One(Some(id), x) {
      OccurrencesAppend(s.log.admitted, id, x);
    }
  }

  lemma AssignKeeps(s: State, i: nat, id: RequestId, now: real)
    requires Core(s) && id !in s.submitted && i < |s.workers| && s.workers[i].state.Ready?
    ensures Core(Assign(Admit(s, id), i, id, now))
  {
    var s' := Assign(Admit(s, id), i, id, now);
    forall x ensures Accounted(s', x) == Accounted(s, x) + One(Some(id), x) {
      RunningUpdate(s.workers, i, Worker(Busy, Some(id)), x);
    }
    AdmitKeeps(s, id, s');
  }

  lemma EnqueueKeeps(s: State, request: Request, now: real, s': State)
    requires Core(s) && request.id !in s.submitted && |s.pending| < s.config.maxPending
    requires s' == Admit(s, request.id).(pending := s.pending + [Pending(request, now)], log := s'.log)
    requires s'.log == Admit(s, request.id).log.(queued := s'.log.queued)
    ensures Core(s')
  {
    forall x ensures Accounted(s', x) == Accounted(s, x) + One(Some(request.id), x) {
      InQueueConcat(s.pending, [Pending(request, now)], x);
      assert InQueue([Pending(request, now)], x) == One(Some(request.id), x);
    }
    AdmitKeeps(s, request.id, s');
  }

  // A ready worker whose pipe turns out to be broken.
  lemma BreakKeeps(s: State, i: nat)
    requires Core(s) && i < |s.workers| && s.workers[i].state.Ready?
    ensures Core(Break(s, i))
  {
    var s' := Break(s, i);
    forall id ensures Accounted(s', id) == Accounted(s, id) {
      RunningUpdate(s.workers, i, s.workers[i].(state := WorkerState.Failed), id);
    }
    MoveKeeps(s, s');
  }

  // What each outcome of an admission did.
  lemma SubmitCases(s: State, request: Request, now: real, broken: set<nat>)
    ensures var (r, outcome) := Submit(s, request, now, broken);
      var i := FirstReady(s.workers);
      && (outcome.Dispatched? ==>
            !s.closed && i < |s.workers| && request.id !in s.submitted && r == Assign(Admit(s, request.id), i, request.id, now))
      && (outcome.Queued? ==>
            && !s.closed && request.id !in s.submitted && |s.pending| < s.config.maxPending
            && r == Admit(s, request.id).(pending := s.pending + [Pending(request, now)], log := r.log)
            && r.log == Admit(s, request.id).log.(queued := r.log.queued))
      && (outcome.Rejected? ==> r == s || (!s.closed && i < |s.workers| && r == Break(s, i)))
  {
  }


  lemma SubmitKeeps(s: State, request: Request, now: real, broken: set<nat>)
    requires Inv(s)
    ensures Inv(Submit(s, request, now, broken).0)
  {
    var (s', outcome) := Submit(s, request, now, broken);
    var i := FirstReady(s.workers);
    SubmitCases(s, request, now, broken);
    if outcome.Dispatched? {
      AssignKeeps(s, i, request.id, now);
    } else if outcome.Queued? {
      EnqueueKeeps(s, request, now, s');
    } else if s' != s {
      BreakKeeps(s, i);
    }
  }

  // With nothing running the loops of a poll change nothing.
  lemma {:induction false} QuietPoll(s: State, i: nat, replies: seq<Reply>, now: real, timeout: real)
    requires s.active == map[] && i <= |s.workers| <= |replies|
    ensures PollFrom(s, i, replies) == (s, false) && ExpireActiveFrom(s, i, now, timeout) == s
    decreases |s.workers| - i
  {
    if i < |s.workers| { QuietPoll(s, i + 1, replies, now, timeout); }
  }

  lemma PollKeeps(s: State, now: real, replies: seq<Reply>)
    requires Inv(s) && |s.workers| <= |replies|
    ensures Inv(Poll(s, now, replies).0)
  {
    if s.closed {
      QuietPoll(s, 0, replies, now, if s.config.maxInference.Some? then s.config.maxInference.value else 0.0);
    }
    PollCore(s, now, replies);
  }

  lemma PollCore(s: State, now: real, replies: seq<Reply>)
    requires Core(s) && |s.workers| <= |replies|
    ensures Core(Poll(s, now, replies).0)
  {
    ExpireKeeps(s, now);
    var s1 := Expire(s, now);
    PollFromKeeps(s1, 0, replies);
    var s2 := PollFrom(s1, 0, replies).0;
    FailPendingKeeps(s2);
    DrainCore(s1);
    DrainCore(FailPendingWithoutHealthy(s2));
  }

  lemma DrainCore(s: State)
    requires Core(s)
    ensures Core(Drain(s))
  {
    assert forall id :: Accounted(Drain(s), id) == Accounted(s, id);
  }

  lemma CancelKeeps(s: State, id: RequestId)
    requires Inv(s)
    ensures Inv(Cancel(s, id).0)
  {
    CancelCore(s, id);
  }

  lemma CancelCore(s: State, id: RequestId)
    requires Core(s)
    ensures Core(Cancel(s, id).0)
  {
    var k := IndexOf(s.pending, id);
    var i := HolderFrom(s, 0, id);
    if k < |s.pending| {
      CutKeeps(s, k, Message(Cancelled, FromScheduler, Some(id), StagePending, 0));
    } else if i < |s.workers| {
      var (w, cancelled) := CancelActive(s.workers[i]);
      var m := Message(Cancelled, FromWorker(i), cancelled, StageActive, 0);
      ReportActiveKeeps(s, i, w, m);
      FailPendingKeeps(Record(Release(s, i, w), m));
    }
  }

  // A queued request leaves, with the report `m`.
  lemma CutKeeps(s: State, k: nat, m: Message)
    requires Core(s) && k < |s.pending| && Terminal(m.kind) && m.requestId == Some(s.pending[k].request.id)
    ensures Core(Record(s.(pending := s.pending[..k] + s.pending[k + 1..]), m))
  {
    var s' := Record(s.(pending := s.pending[..k] + s.pending[k + 1..]), m);
    forall x ensures Accounted(s', x) == Accounted(s, x) {
      CutOne(s.pending, k, x);
      ReportedAppend(s.log.reports, m, x);
    }
    MoveKeeps(s, s');
  }

  lemma CutOne(pending: seq<Pending>, k: nat, id: RequestId)
    requires k < |pending|
    ensures InQueue(pending, id)
         == InQueue(pending[..k] + pending[k + 1..], id) + One(Some(pending[k].request.id), id)
  {
    assert pending == pending[..k] + ([pending[k]] + pending[k + 1..]);
    InQueueConcat(pending[..k], [pending[k]] + pending[k + 1..], id);
    InQueueConcat(pending[..k], pending[k + 1..], id);
  }

  lemma CloseWorkerKeeps(s: State, i: nat)
    requires Core(s) && i < |s.workers|
    ensures Core(CloseWorker(s, i)) && i !in CloseWorker(s, i).active
  {
    var s' := CloseWorker(s, i);
    forall id ensures Accounted(s', id) == Accounted(s, id) {
      RunningUpdate(s.workers, i, Shutdown(s.workers[i]), id);
      if i in s.active { OccurrencesAppend(s.log.dropped, s.active[i], id); }
    }
    MoveKeeps(s, s');
  }

  lemma {:induction false} CloseWorkersKeeps(s: State, i: nat)
    requires Core(s) && i <= |s.workers|
    requires forall k: nat :: k < i ==> s.workers[k].state.Stopped?
    ensures Core(CloseWorkersFrom(s, i))
    ensures forall k: nat :: k < |s.workers| ==> CloseWorkersFrom(s, i).workers[k].state.Stopped?
    decreases |s.workers| - i
  {
    if i < |s.workers| {
      CloseWorkerKeeps(s, i);
      CloseWorkersKeeps(CloseWorker(s, i), i + 1);
    }
  }

  lemma CloseKeeps(s: State)
    requires Core(s) && (s.closed ==> s.pending == [] && s.active == map[])
    ensures Inv(Close(s)) && Close(s).closed
    ensures !s.closed ==> forall i :: 0 <= i < |s.workers| ==> Close(s).workers[i].state.Stopped?
  {
    if !s.closed {
      var s0 := s.(closed := true);
      assert forall id :: Accounted(s0, id) == Accounted(s, id);
      CancelHeadsKeeps(s0);
      CloseWorkersKeeps(CancelHeads(s0), 0);
      var s1 := CloseWorkersFrom(CancelHeads(s0), 0);
      assert s1.active == map[] by { assert s1.active.Keys == {}; }
      assert s1.started == map[] by { assert s1.started.Keys == {}; }
    }
  }
}
