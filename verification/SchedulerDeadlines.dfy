/** A poll reports every request that has waited or run for too long, counted from the readings of the run. */
module SchedulerDeadlines {
  import opened Messages
  import opened SchedulerSpec
  import opened SchedulerInvariants
  import opened SchedulerRuns
  import opened SchedulerOrder
  import opened SchedulerReads
  import opened SchedulerTimeouts
  import opened SchedulerAnswers

  /* ---- Running requests ---- */

  lemma OtherExpiryApart(s: State, j: nat, now: real, timeout: real, id: RequestId)
    requires j < |s.workers| && NotQueued(s, id) && !Runs(s, j, id)
    ensures Apart(s, ExpireWorker(s, j, now, timeout), id)
  {
    if j in s.active { EmitApart(id, s.events, Failure(FromWorker(j), s.active[j], InferenceTimeout)); }
  }

  lemma {:induction false} ExpiriesApart(s: State, j: nat, now: real, timeout: real, id: RequestId)
    requires j <= |s.workers| && NotQueued(s, id) && forall w: nat :: Runs(s, w, id) ==> w < j
    ensures Apart(s, ExpireActiveFrom(s, j, now, timeout), id)
    decreases |s.workers| - j
  {
    if j < |s.workers| {
      var t := ExpireWorker(s, j, now, timeout);
      OtherExpiryApart(s, j, now, timeout, id);
      ExpiriesApart(t, j + 1, now, timeout, id);
      ApartTrans(s, t, ExpireActiveFrom(t, j + 1, now, timeout), id);
    }
  }

  // Worker `i` has run `id` for too long.
  ghost predicate LateAt(s: State, i: nat, id: RequestId, now: real, timeout: real) {
    OnlyAt(s, i, id) && i in s.started && now - s.started[i] >= timeout
  }

  lemma LateExpires(s: State, i: nat, now: real, timeout: real, id: RequestId) returns (t: State)
    requires i < |s.workers| && LateAt(s, i, id, now, timeout)
    ensures t == ExpireWorker(s, i, now, timeout) && |t.workers| == |s.workers| && Nowhere(t, id)
    ensures For(id, t.events) == For(id, s.events) + [Failure(FromWorker(i), id, InferenceTimeout)]
  {
    assert Runs(s, i, id);
    t := ExpireWorker(s, i, now, timeout);
    EmitOwn(id, s.events, Failure(FromWorker(i), id, InferenceTimeout));
    FreedNowhere(s, t, i, id);
  }

  lemma OtherExpiresFirst(s: State, j: nat, i: nat, now: real, timeout: real, id: RequestId) returns (t: State)
    requires j < i < |s.workers| && LateAt(s, i, id, now, timeout)
    ensures t == ExpireWorker(s, j, now, timeout) && |t.workers| == |s.workers| && LateAt(t, i, id, now, timeout)
    ensures For(id, t.events) == For(id, s.events)
  {
    t := ExpireWorker(s, j, now, timeout);
    assert Runs(s, j, id) <==> j == i;
    OtherExpiryApart(s, j, now, timeout, id);
    assert forall w: nat :: Runs(t, w, id) <==> Runs(s, w, id);
  }

  lemma {:induction false} LateReported(s: State, j: nat, i: nat, now: real, timeout: real, id: RequestId)
    requires j <= i < |s.workers| && LateAt(s, i, id, now, timeout)
    ensures var r := ExpireActiveFrom(s, j, now, timeout);
      For(id, r.events) == For(id, s.events) + [Failure(FromWorker(i), id, InferenceTimeout)] && Nowhere(r, id)
    decreases i - j
  {
    if j == i {
      var t := LateExpires(s, i, now, timeout, id);
      ExpiriesApart(t, i + 1, now, timeout, id);
      ApartNowhere(t, ExpireActiveFrom(t, i + 1, now, timeout), id);
    } else {
      var t := OtherExpiresFirst(s, j, i, now, timeout, id);
      LateReported(t, j + 1, i, now, timeout, id);
    }
  }

  lemma LatePoll(s: State, now: real, replies: seq<Reply>, timeout: real, i: nat)
    requires Core(s) && s.config.maxInference == Some(timeout) && |s.workers| <= |replies| && i < |s.workers|
    requires i in s.active && i in s.started && now - s.started[i] >= timeout
    ensures var outcome := Poll(s, now, replies).1;
      outcome.Events? && For(s.active[i], outcome.events)
        == For(s.active[i], s.events) + [Failure(FromWorker(i), s.active[i], InferenceTimeout)]
  {
    var id := s.active[i];
    var u := ExpireActiveFrom(s, 0, now, timeout);
    RunningOnlyThere(s, i);
    LateReported(s, 0, i, now, timeout, id);
    FailingApart(u, id);
    var t := ExpireActive(s, now);
    ApartNowhere(u, FailHeads(u), id);
    if s.config.queueTimeout.Some? { ExpiryApart(t, now, s.config.queueTimeout.value, id); }
    assert For(id, Expire(s, now).events) != [];
  }

  /** A poll at a reading that is the inference timeout, or more, after the dispatch of a running request reports that
      request, once, as timed out. */
  lemma LateIsReported(s: State, ops: seq<Op>, now: real, replies: seq<Reply>, timeout: real, i: nat)
    requires Init(s) && s.config.maxInference == Some(timeout) && |s.workers| <= |replies| && AllFit(ops, |s.workers|)
    requires i in Run(s, ops).active && i < |s.workers|
    requires var r, m := Run(s, ops), DispatchTimes(s, ops, map[]); r.active[i] in m ==> now - m[r.active[i]] >= timeout
    ensures var r := Run(s, ops); var outcome := Poll(r, now, replies).1;
      outcome.Events? && For(r.active[i], outcome.events)
        == For(r.active[i], r.events) + [Failure(FromWorker(i), r.active[i], InferenceTimeout)]
  {
    InitInv(s);
    RunKeeps(s, ops);
    RunStarted(s, ops, map[]);
    LatePoll(Run(s, ops), now, replies, timeout, i);
  }

  /* ---- Waiting requests ---- */

  // The request waits at place `k` and nowhere else.
  ghost predicate OnlyInQueue(s: State, k: nat, id: RequestId) {
    && k < |s.pending| && (forall w: nat :: !Runs(s, w, id))
    && forall j :: 0 <= j < |s.pending| ==> (s.pending[j].request.id == id <==> j == k)
  }

  lemma WaitingOnlyThere(s: State, k: nat)
    requires Core(s) && k < |s.pending|
    ensures OnlyInQueue(s, k, s.pending[k].request.id)
  {
    var id := s.pending[k].request.id;
    assert Accounted(s, id) <= 1;
    forall w: nat ensures !Runs(s, w, id) {
      if Runs(s, w, id) { RunningOnlyThere(s, w); }
    }
    forall j | 0 <= j < |s.pending| ensures s.pending[j].request.id == id <==> j == k {
      if s.pending[j].request.id == id && j != k { QueuedTwice(s.pending, j, k); }
    }
  }

  lemma {:induction false} QueuedTwice(pending: seq<Pending>, j: nat, k: nat)
    requires j < |pending| && k < |pending| && j != k && pending[j].request.id == pending[k].request.id
    ensures InQueue(pending, pending[k].request.id) >= 2
  {
    if j == 0 {
      QueuedOften(pending[1..], k - 1);
    } else if k == 0 {
      QueuedOften(pending[1..], j - 1);
    } else {
      QueuedTwice(pending[1..], j - 1, k - 1);
    }
  }

  lemma {:induction false} NoneReported(pending: seq<Pending>, now: real, timeout: real, id: RequestId)
    requires forall j :: 0 <= j < |pending| ==> pending[j].request.id != id
    ensures For(id, Expiries(pending, now, timeout)) == [] && For(id, Failures(pending, NoHealthyWorker)) == []
  {
    if pending != [] {
      NoneReported(pending[1..], now, timeout, id);
      FailuresHead(pending, NoHealthyWorker);
      var m := Failure(FromScheduler, pending[0].request.id, QueueTimeout);
      ForConcat(id, [m], Expiries(pending[1..], now, timeout));
      assert For(id, [m]) == [];
      assert Expiries(pending, now, timeout) in {[m] + Expiries(pending[1..], now, timeout), [] + Expiries(pending[1..], now, timeout)};
      assert [] + Expiries(pending[1..], now, timeout) == Expiries(pending[1..], now, timeout);
    }
  }

  lemma {:induction false} OneReported(pending: seq<Pending>, k: nat, now: real, timeout: real, id: RequestId)
    requires k < |pending| && forall j :: 0 <= j < |pending| ==> (pending[j].request.id == id <==> j == k)
    ensures now - pending[k].enqueuedAt >= timeout ==>
      For(id, Expiries(pending, now, timeout)) == [Failure(FromScheduler, id, QueueTimeout)]
    ensures For(id, Failures(pending, NoHealthyWorker)) == [Failure(FromScheduler, id, NoHealthyWorker)]
  {
    FailuresHead(pending, NoHealthyWorker);
    var m, n := Failure(FromScheduler, pending[0].request.id, QueueTimeout), Failure(FromScheduler, pending[0].request.id, NoHealthyWorker);
    var rest := Expiries(pending[1..], now, timeout);
    ForConcat(id, [m], rest);
    ForConcat(id, [n], Failures(pending[1..], NoHealthyWorker));
    assert [m][1..] == [] && [n][1..] == [] && [] + rest == rest;
    if k == 0 {
      NoneReported(pending[1..], now, timeout, id);
    } else {
      OneReported(pending[1..], k - 1, now, timeout, id);
    }
  }

  // Expiring running requests says nothing of `id`.
  lemma {:induction false} ExpireWorkersApart(s: State, j: nat, now: real, timeout: real, id: RequestId)
    requires j <= |s.workers| && forall w: nat :: !Runs(s, w, id)
    ensures var r := ExpireActiveFrom(s, j, now, timeout); For(id, r.events) == For(id, s.events) && r.pending == s.pending
    decreases |s.workers| - j
  {
    if j < |s.workers| {
      var t := ExpireWorker(s, j, now, timeout);
      assert !Runs(s, j, id);
      if j in s.active { EmitApart(id, s.events, Failure(FromWorker(j), s.active[j], InferenceTimeout)); }
      forall w: nat ensures !Runs(t, w, id) { assert !Runs(s, w, id); }
      ExpireWorkersApart(t, j + 1, now, timeout, id);
    }
  }

  // What the first part of a poll does about `id`, waiting at place `k`.
  lemma ActiveExpiryOf(s: State, now: real, k: nat, id: RequestId) returns (t: State)
    requires Core(s) && OnlyInQueue(s, k, id)
    ensures t == ExpireActive(s, now)
    ensures (For(id, t.events) == For(id, s.events) && t.pending == s.pending)
         || (For(id, t.events) == For(id, s.events) + [Failure(FromScheduler, id, NoHealthyWorker)] && t.pending == [])
  {
    t := ExpireActive(s, now);
    if s.config.maxInference.Some? {
      var u := ExpireActiveFrom(s, 0, now, s.config.maxInference.value);
      ExpireWorkersApart(s, 0, now, s.config.maxInference.value, id);
      if !AnyHealthy(u.workers) {
        FailHeadsIs(u);
        OneReported(s.pending, k, 0.0, 0.0, id);
        ForConcat(id, u.events, Failures(s.pending, NoHealthyWorker));
      }
    }
  }

  lemma OverduePoll(s: State, now: real, replies: seq<Reply>, timeout: real, k: nat)
    requires Core(s) && s.config.queueTimeout == Some(timeout) && |s.workers| <= |replies| && Timed(s, now)
    requires k < |s.pending| && now - s.pending[k].enqueuedAt >= timeout
    ensures var outcome, id := Poll(s, now, replies).1, s.pending[k].request.id;
      && outcome.Events?
      && (For(id, outcome.events) == For(id, s.events) + [Failure(FromScheduler, id, QueueTimeout)]
          || For(id, outcome.events) == For(id, s.events) + [Failure(FromScheduler, id, NoHealthyWorker)])
  {
    var id := s.pending[k].request.id;
    WaitingOnlyThere(s, k);
    var t := ActiveExpiryOf(s, now, k, id);
    if t.pending == [] {
      assert Expire(s, now) == t;
    } else {
      ExpireHeadsExact(t, now, timeout);
      OneReported(s.pending, k, now, timeout, id);
      ForConcat(id, t.events, Expiries(s.pending, now, timeout));
    }
    assert For(id, Expire(s, now).events) != [];
  }

  /** A poll at a reading that is the queue timeout, or more, after the submission of a waiting request reports that
      request, once: as timed out, or because expiring the running ones has just left no worker. */
  lemma OverdueIsReported(s: State, ops: seq<Op>, start: real, now: real, replies: seq<Reply>, timeout: real, k: nat)
    requires Init(s) && s.config.queueTimeout == Some(timeout) && |s.workers| <= |replies|
    requires AllFit(ops, |s.workers|) && WellTimed(ops, start) && LastClock(ops, start) <= now
    requires k < |Run(s, ops).pending|
    requires var id, m := Run(s, ops).pending[k].request.id, AdmissionTimes(s, ops, map[]); id in m ==> now - m[id] >= timeout
    ensures var r := Run(s, ops); var outcome, id := Poll(r, now, replies).1, r.pending[k].request.id;
      && outcome.Events?
      && (For(id, outcome.events) == For(id, r.events) + [Failure(FromScheduler, id, QueueTimeout)]
          || For(id, outcome.events) == For(id, r.events) + [Failure(FromScheduler, id, NoHealthyWorker)])
  {
    InitInv(s);
    RunKeeps(s, ops);
    RunKeepsStamps(s, ops, map[]);
    RunTimed(s, ops, start);
    TimedLater(Run(s, ops), LastClock(ops, start), now);
    OverduePoll(Run(s, ops), now, replies, timeout, k);
  }
}
