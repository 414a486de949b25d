/** What the second end of a stream does: the worker's next request fails. */
module SecondEnds {
  import opened Messages
  import opened WorkerModel
  import opened SchedulerSpec
  import opened SchedulerInvariants
  import opened SchedulerRuns
  import WP = WorkerProcesses

  // Polls that read `ms` from the only worker, one after the other.
  function Polls(ms: seq<Message>): (r: seq<Op>)
    ensures AllFit(r, 1)
  {
    if ms == [] then [] else [PollOp(0.0, [Reply(Got(ms[0]), 0.0, {})])] + Polls(ms[1..])
  }

  // The only worker runs `id`, and `next` waits.
  ghost predicate OneRuns(s: State, id: RequestId, waiting: seq<Pending>) {
    && s.workers == [Worker(Busy, Some(id))] && s.active == map[0 := id] && s.pending == waiting && s.events == []
    && s.config == Config(1, None, None, None)
  }

  lemma {:induction false} PollsConcat(xs: seq<Message>, ys: seq<Message>)
    ensures Polls(xs + ys) == Polls(xs) + Polls(ys)
  {
    if xs == [] {
      assert xs + ys == ys;
    } else {
      assert (xs + ys)[0] == xs[0] && (xs + ys)[1..] == xs[1..] + ys;
      PollsConcat(xs[1..], ys);
    }
  }

  lemma OnePoll(s: State, m: Message)
    requires |s.workers| == 1 && s.events == [] && s.config == Config(1, None, None, None)
    ensures var (t, raised) := PollWorker(s, 0, Reply(Got(m), 0.0, {}));
      Run(s, Polls([m])) == if raised then t else Drain(FailPendingWithoutHealthy(t))
  {
    var replies := [Reply(Got(m), 0.0, {})];
    assert Polls([m]) == [PollOp(0.0, replies)];
    assert Expire(s, 0.0) == s;
    RunOne(s, PollOp(0.0, replies));
    var (t, raised) := PollWorker(s, 0, replies[0]);
    if !raised { assert PollFrom(t, 1, replies) == (t, false); }
  }

  lemma {:induction false} ChunkPolls(s: State, id: RequestId, waiting: seq<Pending>, ms: seq<Message>)
    requires OneRuns(s, id, waiting) && forall k :: 0 <= k < |ms| ==> ms[k].requestId == Some(id) && ms[k].kind.StreamChunk?
    ensures OneRuns(Run(s, Polls(ms)), id, waiting)
    decreases |ms|
  {
    if ms != [] {
      OnePoll(s, ms[0]);
      assert Receive(s.workers[0], Got(ms[0])) == (s.workers[0], Delivered(ms[0]));
      assert Healthy(s.workers[0]);
      assert ms == [ms[0]] + ms[1..];
      PollsConcat([ms[0]], ms[1..]);
      RunConcat(s, Polls([ms[0]]), Polls(ms[1..]));
      ChunkPolls(Run(s, Polls([ms[0]])), id, waiting, ms[1..]);
    }
  }

  // The end frees the worker for the request that waits.
  lemma EndPoll(s: State, id: RequestId, next: RequestId, m: Message)
    requires OneRuns(s, id, [Pending(Request(next, true, 0), 0.0)]) && m.requestId == Some(id) && m.kind.StreamEnd?
    ensures OneRuns(Run(s, Polls([m])), next, [])
  {
    var w := Worker(WorkerState.Ready, None);
    var u := Finish(s, 0, w, m);
    var t := AssignHead(u, 0, 0.0);
    OnePoll(s, m);
    assert Receive(s.workers[0], Got(m)) == (w, Delivered(m));
    assert FirstReady(u.workers) == 0;
    assert t.workers == [Worker(Busy, Some(next))] && t.active == map[0 := next];
    assert DispatchPending(u, 0.0, {}) == DispatchLoop(t, 0.0, {}) == (t, false);
    assert Healthy(t.workers[0]);
  }

  // The second end is read as an answer to the new request.
  lemma StrayPoll(s: State, id: RequestId, next: RequestId, m: Message)
    requires OneRuns(s, next, []) && m.requestId == Some(id) && id != next
    ensures var r := Run(s, Polls([m]));
      && r.workers == [Worker(Failed, Some(next))]
      && r.log.reports == s.log.reports + [Failure(FromWorker(0), next, RequestIdMismatch)]
  {
    OnePoll(s, m);
    assert Receive(s.workers[0], Got(m)) == (Worker(Failed, Some(next)), Broke(RequestIdMismatch));
  }

  lemma TwoStreams(s: State, id: RequestId, next: RequestId) returns (ops: seq<Op>)
    requires s == OneReady(None) && id != next
    ensures AllFit(ops, 1) && OneRuns(Run(s, ops), id, [Pending(Request(next, true, 0), 0.0)])
    ensures forall k :: 0 <= k < |ops| ==> ops[k].SubmitOp?
  {
    var first, second := SubmitOp(Request(id, true, 0), 0.0, {}), SubmitOp(Request(next, true, 0), 0.0, {});
    var s1 := Step(s, first);
    assert FirstReady(s.workers) == 0;
    assert s1.workers == [Worker(Busy, Some(id))];
    assert Healthy(s1.workers[0]);
    RunOne(s, first);
    RunOne(s1, second);
    RunConcat(s, [first], [second]);
    ops := [first] + [second];
  }

  // The worker failed on `next`, and that was the last to be reported.
  predicate FailedOn(s: State, next: RequestId) {
    && s.workers == [Worker(Failed, Some(next))]
    && s.log.reports != [] && s.log.reports[|s.log.reports| - 1] == Failure(FromWorker(0), next, RequestIdMismatch)
  }

  /** Closing a stream that ended well raises, and its worker's next request fails: with one worker and two stream
      requests, reading what the child makes of the first one, and no more, ends in a `request_id_mismatch` for the
      second. */
  lemma SecondEndFailsNext(id: RequestId, next: RequestId, work: WP.Work) returns (s0: State, submits: seq<Op>)
    requires WP.SpoilsItsEnd(work) && id != next
    ensures Init(s0) && |s0.workers| == 1 && AllFit(submits, 1) && forall k :: 0 <= k < |submits| ==> submits[k].SubmitOp?
    ensures AllFit(submits + Polls(WP.Script(0, id, work)), 1)
    ensures FailedOn(Run(s0, submits + Polls(WP.Script(0, id, work))), next)
  {
    s0 := OneReady(None);
    submits := TwoStreams(s0, id, next);
    ReadScript(Run(s0, submits), id, next, work);
    FailsAfter(s0, submits, Polls(WP.Script(0, id, work)), next);
  }

  lemma FailsAfter(s: State, submits: seq<Op>, polls: seq<Op>, next: RequestId)
    requires |s.workers| == 1 && AllFit(submits, 1) && AllFit(polls, 1) && FailedOn(Run(Run(s, submits), polls), next)
    ensures AllFit(submits + polls, 1) && FailedOn(Run(s, submits + polls), next)
  {
    RunConcat(s, submits, polls);
  }

  lemma ReadScript(s: State, id: RequestId, next: RequestId, work: WP.Work)
    requires OneRuns(s, id, [Pending(Request(next, true, 0), 0.0)]) && id != next && WP.SpoilsItsEnd(work)
    ensures FailedOn(Run(s, Polls(WP.Script(0, id, work))), next)
  {
    var chunks, end, stray := WP.Chunks(0, id, work.chunks), Message(StreamEnd, FromWorker(0), Some(id), Plain, 0), WP.RequestFault(0, id);
    assert WP.Script(0, id, work) == chunks + ([end] + [stray]);
    PollsConcat(chunks, [end] + [stray]);
    PollsConcat([end], [stray]);
    ReadAll(s, id, next, chunks, end, stray);
  }

  lemma ReadAll(s: State, id: RequestId, next: RequestId, chunks: seq<Message>, end: Message, stray: Message)
    requires OneRuns(s, id, [Pending(Request(next, true, 0), 0.0)]) && id != next
    requires forall k :: 0 <= k < |chunks| ==> chunks[k].requestId == Some(id) && chunks[k].kind.StreamChunk?
    requires end.requestId == Some(id) && end.kind.StreamEnd? && stray.requestId == Some(id)
    ensures FailedOn(Run(s, Polls(chunks) + (Polls([end]) + Polls([stray]))), next)
  {
    var waiting := [Pending(Request(next, true, 0), 0.0)];
    ChunkPolls(s, id, waiting, chunks);
    var s1 := Run(s, Polls(chunks));
    EndPoll(s1, id, next, end);
    var s2 := Run(s1, Polls([end]));
    StrayPoll(s2, id, next, stray);
    RunConcat(s1, Polls([end]), Polls([stray]));
    RunConcat(s, Polls(chunks), Polls([end]) + Polls([stray]));
  }
}
