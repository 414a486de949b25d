/** Starting a tuple of workers is all or nothing. */
module WorkerStartup {
  import opened Messages
  import opened WorkerModel
  import opened WorkerClients

  // What `start_worker_clients` comes to: it returns, re-raises what a start raised, or rejects the tuple.
  datatype Outcome = Started | StartRaised | NoWorkers

  predicate ReadyNotice(startup: Startup) {
    startup.FirstRead? && startup.read.Got? && startup.read.message.kind.WorkerReady?
  }

  // Shut down the workers in `order`, whatever that raises.  `broken` holds those that cannot be told to.
  method ShutDownAll(order: seq<WorkerClient>, broken: set<WorkerClient>)
    requires forall w :: w in order ==> w.Valid()
    modifies order
    ensures forall w :: w in order ==> w.Valid() && w.state.Stopped?
    ensures forall w :: w in order && w !in broken && !old(w.state).Stopped? ==> !w.running
    ensures forall w :: w in order && old(w.state).Stopped? ==> w.running == old(w.running)
  {
    for i := 0 to |order|
      invariant forall w :: w in order ==> w.Valid()
      invariant forall w :: w in order[..i] ==> w.state.Stopped?
      invariant forall w :: w in order[..i] && w !in broken && !old(w.state).Stopped? ==> !w.running
      invariant forall w :: w in order && (w !in order[..i] || old(w.state).Stopped?) ==> w.state == old(w.state) && w.running == old(w.running)
    {
      var raised := order[i].Shutdown(order[i] !in broken, Nothing(true));
    }
  }

  /** Either every worker ends up ready, or every one ends up stopped, whatever state they were in, whichever
      of them failed and however; and it is the former exactly when they are distinct fresh workers of which each
      sends its ready notice.  If no pipe is broken a failed start leaves no process running. */
  method StartAll(workers: seq<WorkerClient>, startups: seq<Startup>, broken: set<WorkerClient>) returns (outcome: Outcome)
    requires |startups| == |workers| && forall w :: w in workers ==> w.Valid()
    modifies workers
    ensures forall w :: w in workers ==> w.Valid()
    ensures outcome.NoWorkers? <==> workers == []
    ensures outcome.Started? ==> forall w :: w in workers ==> w.state.Ready?
    ensures outcome.StartRaised? ==> forall w :: w in workers ==> w.state.Stopped?
    ensures outcome.Started? <==>
      && workers != []
      && (forall i :: 0 <= i < |workers| ==> old(workers[i].state).Created? && ReadyNotice(startups[i]))
      && (forall i, j :: 0 <= i < j < |workers| ==> workers[i] != workers[j])
    ensures outcome.StartRaised? ==> forall w :: w in workers && w !in broken && !old(w.state).Stopped? ==> !w.running
  {
    if workers == [] { return NoWorkers; }
    for i := 0 to |workers|
      invariant forall w :: w in workers ==> w.Valid()
      invariant forall w :: w in workers[..i] ==> w.state.Ready? && old(w.state).Created?
      invariant forall w :: w in workers && w !in workers[..i] ==> w.state == old(w.state)
      invariant forall j :: 0 <= j < i ==> ReadyNotice(startups[j])
      invariant forall j, k :: 0 <= j < k < i ==> workers[j] != workers[k]
    {
      label Before:
      var ok := workers[i].Start(startups[i]);
      if !ok {
        assert workers[i].state.Stopped? ==> old@Before(workers[i].state).Stopped?;
        RollBack(workers, i, broken);
        return StartRaised;
      }
      assert workers[i] !in workers[..i];
    }
    outcome := Started;
  }

  // Shut down the started workers, last first, and then the others.
  method RollBack(workers: seq<WorkerClient>, started: nat, broken: set<WorkerClient>)
    requires started < |workers| && forall w :: w in workers ==> w.Valid()
    modifies workers
    ensures forall w :: w in workers ==> w.Valid() && w.state.Stopped?
    ensures forall w :: w in workers && w !in broken && !old(w.state).Stopped? ==> !w.running
  {
    var order := Reversed(workers[..started]) + workers[started..];
    RearrangedSame(workers, started, order);
    ShutDownAll(order, broken);
  }

  lemma RearrangedSame(s: seq<WorkerClient>, k: nat, order: seq<WorkerClient>)
    requires k <= |s| && order == Reversed(s[..k]) + s[k..]
    ensures forall i :: 0 <= i < |order| ==> order[i] in s
    ensures forall x :: x in s ==> x in order
  {
    ReversedSame(s[..k]);
    assert s == s[..k] + s[k..];
  }

  function Reversed<T>(s: seq<T>): seq<T> {
    if s == [] then [] else Reversed(s[1..]) + [s[0]]
  }

  lemma {:induction false} ReversedSame<T>(s: seq<T>)
    ensures forall x :: x in Reversed(s) <==> x in s
  {
    if s != [] {
      ReversedSame(s[1..]);
      assert s == [s[0]] + s[1..];
    }
  }

  /* ---- Stopped is final ---- */

  datatype Call =
    | StartCall(startup: Startup)
    | SubmitCall(id: RequestId, pipeOpen: bool)
    | ReceiveCall(read: Read)
    | CancelCall
    | ShutdownCall

  function Apply(w: Worker, call: Call): Worker {
    match call
    case StartCall(startup) => Start(w, startup)
    case SubmitCall(id, pipeOpen) => Send(w, id, pipeOpen).0
    case ReceiveCall(read) => Receive(w, read).0
    case CancelCall => CancelActive(w).0
    case ShutdownCall => Shutdown(w)
  }

  function ApplyAll(w: Worker, calls: seq<Call>): Worker
    decreases |calls|
  {
    if calls == [] then w else ApplyAll(Apply(w, calls[0]), calls[1..])
  }

  /** No sequence of calls brings a stopped worker back, or changes it. */
  lemma {:induction false} StoppedForever(w: Worker, calls: seq<Call>)
    requires w.state.Stopped?
    ensures ApplyAll(w, calls) == w
    decreases |calls|
  {
    if calls != [] { StoppedForever(Apply(w, calls[0]), calls[1..]); }
  }

  /** A worker becomes ready again after failing in no sequence of calls: it can only be stopped. */
  lemma {:induction false} FailedNeverServes(w: Worker, calls: seq<Call>)
    requires w.state.Failed? || w.state.Stopped?
    ensures var r := ApplyAll(w, calls); (r.state.Failed? || r.state.Stopped?) && r.activeId == w.activeId
    decreases |calls|
  {
    if calls != [] { FailedNeverServes(Apply(w, calls[0]), calls[1..]); }
  }
}
