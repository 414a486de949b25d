/** What the scheduler's internal work does to a state, as one transitive relation: which requests
    move, which messages appear, and that the queue's order is kept. */
module SchedulerProgress {
  import opened Messages
  import opened WorkerModel
  import opened SchedulerSpec
  import opened SchedulerInvariants

  /* ---- Subsequences ---- */

  predicate Subseq(a: seq<RequestId>, b: seq<RequestId>)
    decreases |b|
  {
    if a == [] then true
    else if b == [] then false
    else
      || (a[|a| - 1] == b[|b| - 1] && Subseq(a[..|a| - 1], b[..|b| - 1]))
      || Subseq(a, b[..|b| - 1])
  }

  lemma {:induction false} SubseqRefl(a: seq<RequestId>)
    ensures Subseq(a, a)
  {
    if a != [] { SubseqRefl(a[..|a| - 1]); }
  }

  lemma {:induction false} SubseqShorter(a: seq<RequestId>, b: seq<RequestId>)
    requires a != [] && Subseq(a, b)
    ensures Subseq(a[..|a| - 1], b)
    decreases |b|
  {
    if a[|a| - 1] == b[|b| - 1] && Subseq(a[..|a| - 1], b[..|b| - 1]) {
    } else {
      SubseqShorter(a, b[..|b| - 1]);
    }
    if |a| > 1 { assert Subseq(a[..|a| - 1], b[..|b| - 1]); }
  }

  lemma {:induction false} SubseqTrans(a: seq<RequestId>, b: seq<RequestId>, c: seq<RequestId>)
    requires Subseq(a, b) && Subseq(b, c)
    ensures Subseq(a, c)
    decreases |b| + |c|
  {
    if a != [] {
      if b[|b| - 1] == c[|c| - 1] && Subseq(b[..|b| - 1], c[..|c| - 1]) {
        if a[|a| - 1] == b[|b| - 1] && Subseq(a[..|a| - 1], b[..|b| - 1]) {
          SubseqTrans(a[..|a| - 1], b[..|b| - 1], c[..|c| - 1]);
        } else {
          SubseqTrans(a, b[..|b| - 1], c[..|c| - 1]);
        }
      } else {
        SubseqTrans(a, b, c[..|c| - 1]);
      }
    }
  }

  // Taking one element out leaves a subsequence.
  lemma {:induction false} SubseqCut(x: seq<RequestId>, h: RequestId, y: seq<RequestId>)
    ensures Subseq(x + y, x + [h] + y)
  {
    var a, b := x + y, x + [h] + y;
    if y == [] {
      assert a == x && b[..|b| - 1] == x;
      SubseqRefl(x);
    } else {
      assert a[..|a| - 1] == x + y[..|y| - 1] && b[..|b| - 1] == x + [h] + y[..|y| - 1];
      SubseqCut(x, h, y[..|y| - 1]);
    }
  }

  lemma SubseqAppend(a: seq<RequestId>, b: seq<RequestId>, x: RequestId)
    requires Subseq(a, b)
    ensures Subseq(a + [x], b + [x])
  {
    assert (a + [x])[..|a|] == a && (b + [x])[..|b|] == b;
  }

  /* ---- The relation ---- */

  function Ids(pending: seq<Pending>): (ids: seq<RequestId>)
    ensures |ids| == |pending|
  {
    seq(|pending|, k requires 0 <= k < |pending| => pending[k].request.id)
  }

  // Dispatched so far, then waiting: the order in which requests are to be served.
  function ServiceOrder(s: State): seq<RequestId> {
    s.log.dispatched + Ids(s.pending)
  }

  function QueueOrder(s: State): seq<RequestId> {
    s.log.dequeued + Ids(s.pending)
  }

  // A running request was already running there, or was waiting and found the worker ready.
  ghost predicate RunsOn(s: State, r: State, i: nat)
    requires i in r.active
  {
    || (i in s.active && s.active[i] == r.active[i])
    || (InQueue(s.pending, r.active[i]) > 0 && i < |s.workers| && s.workers[i].state.Ready?)
  }

  ghost predicate Progress(s: State, r: State) {
    && Continues(s, r)
    // The queue only loses requests from its front.
    && r.pending == s.pending[|s.pending| - |r.pending|..]
    && Subseq(ServiceOrder(r), ServiceOrder(s))
    && Subseq(QueueOrder(r), QueueOrder(s))
    // New events are failures of named requests, and each is on record.
    && s.events <= r.events && s.log.dropped <= r.log.dropped
    && r.log.reports == s.log.reports + r.events[|s.events|..]
    && (forall k :: |s.events| <= k < |r.events| ==>
          (r.events[k].kind.Error? || r.events[k].kind.Cancelled?) && r.events[k].requestId.Some?)
    && (forall i: nat :: i in r.active ==> RunsOn(s, r, i))
    // A ready worker was not touched.
    && (forall i :: 0 <= i < |s.workers| && r.workers[i].state.Ready? ==> r.workers[i] == s.workers[i])
  }

  lemma ProgressRefl(s: State)
    ensures Progress(s, s)
  {
    SubseqRefl(ServiceOrder(s));
    SubseqRefl(QueueOrder(s));
    assert s.events[|s.events|..] == [];
  }

  lemma InQueueSuffix(pending: seq<Pending>, k: nat, id: RequestId)
    requires k <= |pending|
    ensures InQueue(pending[k..], id) <= InQueue(pending, id)
  {
    assert pending == pending[..k] + pending[k..];
    InQueueConcat(pending[..k], pending[k..], id);
  }

  lemma ProgressTrans(s: State, t: State, r: State)
    requires Progress(s, t) && Progress(t, r)
    ensures Progress(s, r)
  {
    SubseqTrans(ServiceOrder(r), ServiceOrder(t), ServiceOrder(s));
    SubseqTrans(QueueOrder(r), QueueOrder(t), QueueOrder(s));
    RecordTrans(s.events, t.events, r.events, s.log.reports, t.log.reports, r.log.reports);
    SuffixTrans(s.pending, t.pending, r.pending);
    forall i: nat | i in r.active ensures RunsOn(s, r, i) {
      RunsOnTrans(s, t, r, i);
    }
  }

  lemma RecordTrans(e0: seq<Message>, e1: seq<Message>, e2: seq<Message>, r0: seq<Message>, r1: seq<Message>, r2: seq<Message>)
    requires e0 <= e1 && e1 <= e2 && r1 == r0 + e1[|e0|..] && r2 == r1 + e2[|e1|..]
    ensures e0 <= e2 && r2 == r0 + e2[|e0|..]
  {
    assert e2[|e0|..] == e1[|e0|..] + e2[|e1|..];
  }

  lemma SuffixTrans(a: seq<Pending>, b: seq<Pending>, c: seq<Pending>)
    requires |c| <= |b| <= |a| && b == a[|a| - |b|..] && c == b[|b| - |c|..]
    ensures c == a[|a| - |c|..]
  {
  }

  lemma RunsOnTrans(s: State, t: State, r: State, i: nat)
    requires i in r.active && RunsOn(t, r, i) && (i in t.active ==> RunsOn(s, t, i))
    requires |t.pending| <= |s.pending| && t.pending == s.pending[|s.pending| - |t.pending|..]
    requires |t.workers| == |s.workers| && (i < |s.workers| && t.workers[i].state.Ready? ==> t.workers[i] == s.workers[i])
    ensures RunsOn(s, r, i)
  {
    InQueueSuffix(s.pending, |s.pending| - |t.pending|, r.active[i]);
  }

  /* ---- The small steps ---- */

  lemma HeadOrder(s: State)
    requires s.pending != []
    ensures Ids(s.pending) == [s.pending[0].request.id] + Ids(s.pending[1..])
  {
  }

  // The queue's head leaves without being dispatched.
  lemma HeadLeaves(s: State, r: State)
    requires s.pending != [] && r.pending == s.pending[1..]
    requires r.log.dispatched == s.log.dispatched && r.log.dequeued == s.log.dequeued
    ensures Subseq(ServiceOrder(r), ServiceOrder(s)) && Subseq(QueueOrder(r), QueueOrder(s))
  {
    HeadOrder(s);
    var h, rest := s.pending[0].request.id, Ids(s.pending[1..]);
    SubseqCut(s.log.dispatched, h, rest);
    SubseqCut(s.log.dequeued, h, rest);
    assert ServiceOrder(s) == s.log.dispatched + [h] + rest;
    assert QueueOrder(s) == s.log.dequeued + [h] + rest;
  }

  lemma RetireHeadProgress(s: State, m: Message)
    requires s.pending != [] && (m.kind.Error? || m.kind.Cancelled?) && m.requestId.Some?
    ensures Progress(s, RetireHead(s, m))
  {
    HeadLeaves(s, RetireHead(s, m));
  }

  lemma LoseHeadProgress(s: State, i: nat)
    requires s.pending != [] && i < |s.workers|
    ensures Progress(s, LoseHead(s, i))
  {
    HeadLeaves(s, LoseHead(s, i));
    assert s.events[|s.events|..] == [];
  }

  lemma AssignHeadProgress(s: State, i: nat, now: real)
    requires s.pending != [] && i < |s.workers| && s.workers[i].state.Ready?
    ensures Progress(s, AssignHead(s, i, now))
  {
    var r := AssignHead(s, i, now);
    HeadOrder(s);
    assert ServiceOrder(r) == ServiceOrder(s) && QueueOrder(r) == QueueOrder(s);
    ProgressRefl(s);
  }

  // A worker gives up its request with the failure `m`.
  lemma GiveUpProgress(s: State, i: nat, w: Worker, m: Message)
    requires i < |s.workers| && m.kind.Error? && m.requestId.Some?
    requires w.state.Ready? ==> w == s.workers[i]
    ensures Progress(s, Emit(Release(s, i, w), m))
  {
    ProgressRefl(s);
  }

  /* ---- The loops ---- */

  lemma {:induction false} ExpireHeadsProgress(s: State, now: real, timeout: real)
    ensures Progress(s, ExpireHeads(s, now, timeout))
    decreases |s.pending|
  {
    if s.pending != [] && Overdue(s.pending[0], now, timeout) {
      var m := Failure(FromScheduler, s.pending[0].request.id, QueueTimeout);
      RetireHeadProgress(s, m);
      ExpireHeadsProgress(RetireHead(s, m), now, timeout);
      ProgressTrans(s, RetireHead(s, m), ExpireHeads(s, now, timeout));
    } else {
      ProgressRefl(s);
    }
  }

  lemma ExpirePendingProgress(s: State, now: real)
    ensures Progress(s, ExpirePending(s, now))
  {
    if s.config.queueTimeout.Some? {
      ExpireHeadsProgress(s, now, s.config.queueTimeout.value);
    } else {
      ProgressRefl(s);
    }
  }

  lemma {:induction false} FailHeadsProgress(s: State)
    ensures Progress(s, FailHeads(s)) && FailHeads(s).pending == []
    ensures FailHeads(s).active == s.active
    decreases |s.pending|
  {
    if s.pending != [] {
      var m := Failure(FromScheduler, s.pending[0].request.id, NoHealthyWorker);
      RetireHeadProgress(s, m);
      FailHeadsProgress(RetireHead(s, m));
      ProgressTrans(s, RetireHead(s, m), FailHeads(s));
    } else {
      ProgressRefl(s);
    }
  }

  lemma FailPendingProgress(s: State)
    ensures Progress(s, FailPendingWithoutHealthy(s))
    ensures FailPendingWithoutHealthy(s).active == s.active
    ensures !AnyHealthy(s.workers) ==> FailPendingWithoutHealthy(s).pending == []
  {
    ProgressRefl(s);
    FailHeadsProgress(s);
  }

  lemma {:induction false} ExpireActiveFromProgress(s: State, i: nat, now: real, timeout: real)
    requires i <= |s.workers|
    ensures Progress(s, ExpireActiveFrom(s, i, now, timeout))
    decreases |s.workers| - i
  {
    ProgressRefl(s);
    if i < |s.workers| {
      var t := ExpireWorker(s, i, now, timeout);
      if t != s {
        GiveUpProgress(s, i, CancelActive(s.workers[i]).0, Failure(FromWorker(i), s.active[i], InferenceTimeout));
      }
      ExpireActiveFromProgress(t, i + 1, now, timeout);
      ProgressTrans(s, t, ExpireActiveFrom(s, i, now, timeout));
    }
  }

  lemma ExpireProgress(s: State, now: real)
    ensures Progress(s, Expire(s, now))
  {
    var t := ExpireActive(s, now);
    assert Progress(s, t) by {
      if s.config.maxInference.Some? {
        var u := ExpireActiveFrom(s, 0, now, s.config.maxInference.value);
        ExpireActiveFromProgress(s, 0, now, s.config.maxInference.value);
        FailPendingProgress(u);
        ProgressTrans(s, u, t);
      } else {
        ProgressRefl(s);
      }
    }
    ExpirePendingProgress(t, now);
    ProgressTrans(s, t, Expire(s, now));
  }

  lemma {:induction false} DispatchLoopProgress(s: State, now: real, broken: set<nat>)
    ensures Progress(s, DispatchLoop(s, now, broken).0)
    decreases |s.pending|
  {
    ProgressRefl(s);
    var i := FirstReady(s.workers);
    if s.pending != [] && BelowCap(s) && i < |s.workers| {
      if i in broken {
        LoseHeadProgress(s, i);
      } else {
        var t := AssignHead(s, i, now);
        AssignHeadProgress(s, i, now);
        DispatchLoopProgress(t, now, broken);
        ProgressTrans(s, t, DispatchLoop(s, now, broken).0);
      }
    }
  }

  lemma DispatchPendingProgress(s: State, now: real, broken: set<nat>)
    ensures Progress(s, DispatchPending(s, now, broken).0)
  {
    var t := ExpirePending(s, now);
    ExpirePendingProgress(s, now);
    DispatchLoopProgress(t, now, broken);
    ProgressTrans(s, t, DispatchPending(s, now, broken).0);
  }

  lemma {:induction false} CancelHeadsProgress(s: State)
    ensures Progress(s, CancelHeads(s))
    decreases |s.pending|
  {
    if s.pending != [] {
      var m := Message(Cancelled, FromScheduler, Some(s.pending[0].request.id), StageShutdown, 0);
      RetireHeadProgress(s, m);
      CancelHeadsProgress(RetireHead(s, m));
      ProgressTrans(s, RetireHead(s, m), CancelHeads(s));
    } else {
      ProgressRefl(s);
    }
  }
}
