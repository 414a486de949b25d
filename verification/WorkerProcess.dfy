/** The child side of the protocol: what a worker process puts on its result queue. */
module WorkerProcesses {
  import opened Messages
  import StreamSystem
  import opened StreamInvariant

  // How a one-shot operation of the backend comes out.
  datatype Outcome = Audio(payload: int) | NotAudio | Raised

  // What the backend makes of a request.  A stream may fail to open, yields chunks, then ends or raises;
  // closing its iterator may raise too.
  datatype Work =
    | OneShot(outcome: Outcome)
    | Streaming(opens: bool, chunks: seq<int>, ends: bool, closeRaises: bool)

  // How loading or closing the backend comes out.  An end-of-file error is taken for a closed control pipe.
  datatype Lifecycle = Done | Fails | HitsEof

  // What the control pipe delivers.  After the last command it is closed.
  datatype Command = Execute(id: RequestId, work: Work) | ShutDown(closing: Lifecycle) | Garbage

  /* ---- What is put on the queue, as functions ---- */

  function Chunk(w: nat, id: RequestId, payload: int): Message {
    Message(StreamChunk, FromWorker(w), Some(id), Plain, payload)
  }

  function RequestFault(w: nat, id: RequestId): Message {
    Failure(FromWorker(w), id, BackendFailed)
  }

  function Chunks(w: nat, id: RequestId, payloads: seq<int>): (r: seq<Message>)
    ensures |r| == |payloads|
    ensures forall k :: 0 <= k < |r| ==> r[k] == Chunk(w, id, payloads[k])
  {
    seq(|payloads|, k requires 0 <= k < |payloads| => Chunk(w, id, payloads[k]))
  }

  // The messages of one request.
  function Script(w: nat, id: RequestId, work: Work): seq<Message> {
    match work
    case OneShot(outcome) =>
      [if outcome.Audio? then Message(Result, FromWorker(w), Some(id), Plain, outcome.payload) else RequestFault(w, id)]
    case Streaming(opens, chunks, ends, closeRaises) =>
      if !opens then [RequestFault(w, id)]
      else if !ends then Chunks(w, id, chunks) + [RequestFault(w, id)]
      else Chunks(w, id, chunks) + [Message(StreamEnd, FromWorker(w), Some(id), Plain, 0)]
           + if closeRaises then [RequestFault(w, id)] else []
  }

  // The messages of a process that received `commands`.
  function Serving(w: nat, commands: seq<Command>): seq<Message> {
    if commands == [] then []
    else match commands[0]
      case Execute(id, work) => Script(w, id, work) + Serving(w, commands[1..])
      case ShutDown(closing) => LastWord(w, closing)
      case Garbage => LastWord(w, Fails)
  }

  // What the process says last, when closing its backend comes out as `closing`.
  function LastWord(w: nat, closing: Lifecycle): seq<Message> {
    match closing
    case Done => [Message(ShutdownAck, FromWorker(w), None, Plain, 0)]
    case Fails => [StreamSystem.Anonymous(w)]
    case HitsEof => []
  }

  function Trace(w: nat, loading: Lifecycle, commands: seq<Command>): seq<Message> {
    if loading.Done? then [Message(WorkerReady, FromWorker(w), None, Plain, 0)] + Serving(w, commands)
    else LastWord(w, loading)
  }

  function Cut(ms: seq<Message>, limit: nat): seq<Message> {
    if limit < |ms| then ms[..limit] else ms
  }

  // What is cut off already stays so, whatever would follow.
  lemma CutLonger(a: seq<Message>, b: seq<Message>, limit: nat)
    requires |a| > limit
    ensures Cut(a + b, limit) == Cut(a, limit)
  {
  }

  // After one more script, as far as the transport holds.
  lemma ServingOn(before: seq<Message>, script: seq<Message>, rest: seq<Message>, sent: seq<Message>, limit: nat)
    requires sent == Cut(before + script, limit)
    ensures |before + script| <= limit ==> sent + rest == before + (script + rest)
    ensures |before + script| > limit ==> sent == Cut(before + (script + rest), limit)
  {
    assert before + (script + rest) == (before + script) + rest;
  }

  // A put of the next message of `all` fails: what was sent is all that gets through.
  lemma CutShort(sent: seq<Message>, all: seq<Message>, limit: nat)
    requires sent <= all && |sent| == limit && |sent| < |all|
    ensures sent == Cut(all, limit)
  {
  }

  /* ---- What the messages carry ---- */

  // The payloads of the messages of that kind that name `id`, in order.
  function Payloads(kind: Kind, id: RequestId, ms: seq<Message>): seq<int> {
    if ms == [] then []
    else (if ms[0].kind == kind && ms[0].requestId == Some(id) then [ms[0].payload] else []) + Payloads(kind, id, ms[1..])
  }

  // The audio that a request's work makes: the chunks of a stream, and the result of another request.
  function Streamed(work: Work): seq<int> {
    if work.Streaming? && work.opens then work.chunks else []
  }

  function Made(work: Work): seq<int> {
    if work.OneShot? && work.outcome.Audio? then [work.outcome.payload] else []
  }

  // The messages carry the start of that audio, in order, and nothing else; all of it if the transport never failed.
  ghost predicate Carries(ms: seq<Message>, id: RequestId, work: Work, whole: bool) {
    && Payloads(StreamChunk, id, ms) <= Streamed(work) && Payloads(Result, id, ms) <= Made(work)
    && (whole ==> Payloads(StreamChunk, id, ms) == Streamed(work) && Payloads(Result, id, ms) == Made(work))
  }

  lemma {:induction false} PayloadsConcat(kind: Kind, id: RequestId, a: seq<Message>, b: seq<Message>)
    ensures Payloads(kind, id, a + b) == Payloads(kind, id, a) + Payloads(kind, id, b)
  {
    if a == [] {
      assert a + b == b;
    } else {
      assert (a + b)[0] == a[0] && (a + b)[1..] == a[1..] + b;
      PayloadsConcat(kind, id, a[1..], b);
    }
  }

  lemma {:induction false} PayloadsFor(kind: Kind, id: RequestId, ms: seq<Message>)
    ensures Payloads(kind, id, ms) == Payloads(kind, id, For(id, ms))
  {
    if ms != [] {
      PayloadsFor(kind, id, ms[1..]);
      if ms[0].requestId == Some(id) {
        assert For(id, ms)[1..] == For(id, ms[1..]);
      } else {
        assert For(id, ms) == For(id, ms[1..]);
      }
    }
  }

  lemma {:induction false} ChunksCarry(w: nat, id: RequestId, payloads: seq<int>)
    ensures Payloads(StreamChunk, id, Chunks(w, id, payloads)) == payloads && Payloads(Result, id, Chunks(w, id, payloads)) == []
  {
    if payloads != [] {
      assert Chunks(w, id, payloads)[1..] == Chunks(w, id, payloads[1..]);
      ChunksCarry(w, id, payloads[1..]);
    }
  }

  lemma NoneCarried(kind: Kind, id: RequestId, m: Message)
    requires m.kind != kind
    ensures Payloads(kind, id, [m]) == []
  {
    assert [m][1..] == [];
  }

  lemma ScriptCarries(w: nat, id: RequestId, work: Work)
    ensures Payloads(StreamChunk, id, Script(w, id, work)) == Streamed(work)
    ensures Payloads(Result, id, Script(w, id, work)) == Made(work)
  {
    if work.Streaming? && work.opens {
      var chunks, rest := Chunks(w, id, work.chunks), Script(w, id, work)[|work.chunks|..];
      assert Script(w, id, work) == chunks + rest;
      ChunksCarry(w, id, work.chunks);
      NothingMore(w, id, work, rest);
      PayloadsConcat(StreamChunk, id, chunks, rest);
      PayloadsConcat(Result, id, chunks, rest);
    } else {
      assert Script(w, id, work)[1..] == [];
    }
  }

  // After the chunks come ends only.
  lemma NothingMore(w: nat, id: RequestId, work: Work, rest: seq<Message>)
    requires work.Streaming? && work.opens && rest == Script(w, id, work)[|work.chunks|..]
    ensures Payloads(StreamChunk, id, rest) == [] && Payloads(Result, id, rest) == []
  {
    var fault, end := RequestFault(w, id), Message(StreamEnd, FromWorker(w), Some(id), Plain, 0);
    NoneCarried(StreamChunk, id, fault);
    NoneCarried(Result, id, fault);
    NoneCarried(StreamChunk, id, end);
    NoneCarried(Result, id, end);
    if !work.ends {
      assert rest == [fault];
    } else if work.closeRaises {
      assert rest == [end] + [fault];
      PayloadsConcat(StreamChunk, id, [end], [fault]);
      PayloadsConcat(Result, id, [end], [fault]);
    } else {
      assert rest == [end];
    }
  }

  lemma CutCarries(kind: Kind, id: RequestId, ms: seq<Message>, limit: nat)
    ensures Payloads(kind, id, Cut(ms, limit)) <= Payloads(kind, id, ms)
  {
    if limit < |ms| {
      assert ms == ms[..limit] + ms[limit..];
      PayloadsConcat(kind, id, ms[..limit], ms[limit..]);
    }
  }

  // For every request that the process gets to.
  ghost predicate CarriesAudio(sent: seq<Message>, commands: seq<Command>, limit: nat) {
    forall k :: 0 <= k < |commands| && commands[k].Execute? && Reaches(commands, k, commands[k].id) ==>
      Carries(sent, commands[k].id, commands[k].work, |sent| < limit)
  }

  lemma TraceCarries(w: nat, commands: seq<Command>, limit: nat)
    ensures CarriesAudio(Cut(Trace(w, Done, commands), limit), commands, limit)
  {
    var all := Trace(w, Done, commands);
    forall k | 0 <= k < |commands| && commands[k].Execute? && Reaches(commands, k, commands[k].id)
      ensures Carries(Cut(all, limit), commands[k].id, commands[k].work, |Cut(all, limit)| < limit)
    {
      var id, work := commands[k].id, commands[k].work;
      TraceScript(w, commands, k, id);
      ScriptCarries(w, id, work);
      PayloadsFor(StreamChunk, id, all);
      PayloadsFor(Result, id, all);
      CutCarries(StreamChunk, id, all, limit);
      CutCarries(Result, id, all, limit);
    }
  }

  /* ---- The process ---- */

  /** The result queue as the child sees it: after `limit` messages its transport is gone, and every put fails. */
  class ResultQueue {
    var sent: seq<Message>
    const limit: nat

    constructor (limit: nat)
      ensures sent == [] && this.limit == limit
    {
      sent := [];
      this.limit := limit;
    }

    ghost predicate Valid()
      reads this
    {
      |sent| <= limit
    }

    method Put(m: Message) returns (ok: bool)
      requires Valid()
      modifies this
      ensures Valid() && sent == Cut(old(sent) + [m], limit) && ok == (|old(sent)| < limit)
    {
      ok := |sent| < limit;
      if ok { sent := sent + [m]; }
    }

    // One request, including the handlers around it.  A failed put ends the process.
    method Handle(w: nat, id: RequestId, work: Work) returns (alive: bool)
      requires Valid()
      modifies this
      ensures Valid() && sent == Cut(old(sent) + Script(w, id, work), limit)
      ensures alive <==> |old(sent) + Script(w, id, work)| <= limit
    {
      var raised: bool;
      alive, raised := ExecuteRequest(w, id, work);
      if raised { alive := Put(RequestFault(w, id)); }
    }

    // The request itself; `raised` is an exception for the handler, other than a failed put.
    method ExecuteRequest(w: nat, id: RequestId, work: Work) returns (alive: bool, raised: bool)
      requires Valid()
      modifies this
      ensures Valid()
      ensures alive ==> sent + (if raised then [RequestFault(w, id)] else []) == old(sent) + Script(w, id, work)
      ensures !alive ==>
        !raised && |old(sent) + Script(w, id, work)| > limit && sent == Cut(old(sent) + Script(w, id, work), limit)
    {
      match work {
        case OneShot(outcome) =>
          if !outcome.Audio? { return true, true; }
          alive := Put(Message(Result, FromWorker(w), Some(id), Plain, outcome.payload));
          raised := false;
        case Streaming(opens, chunks, ends, closeRaises) =>
          if !opens { return true, true; }
          alive := PutChunks(w, id, chunks);
          if !alive {
            CutShort(sent, old(sent) + Script(w, id, work), limit);
            return false, false;
          }
          if !ends { return true, true; }
          alive := Put(Message(StreamEnd, FromWorker(w), Some(id), Plain, 0));
          raised := alive && closeRaises;
      }
    }

    // The loop over the backend's iterator.
    method PutChunks(w: nat, id: RequestId, chunks: seq<int>) returns (alive: bool)
      requires Valid()
      modifies this
      ensures Valid()
      ensures alive ==> sent == old(sent) + Chunks(w, id, chunks)
      ensures !alive ==> |sent| == limit && sent <= old(sent) + Chunks(w, id, chunks) && |sent| < |old(sent) + Chunks(w, id, chunks)|
    {
      for k := 0 to |chunks|
        invariant Valid() && sent == old(sent) + Chunks(w, id, chunks)[..k]
      {
        alive := Put(Chunk(w, id, chunks[k]));
        if !alive { return; }
      }
      alive := true;
    }

    method Finish(w: nat, closing: Lifecycle)
      requires Valid()
      modifies this
      ensures Valid() && sent == Cut(old(sent) + LastWord(w, closing), limit)
    {
      if closing.HitsEof? { return; }
      var ok := Put(if closing.Done? then Message(ShutdownAck, FromWorker(w), None, Plain, 0) else StreamSystem.Anonymous(w));
    }

    method Serve(w: nat, commands: seq<Command>)
      requires Valid()
      modifies this
      ensures Valid() && sent == Cut(old(sent) + Serving(w, commands), limit)
    {
      assert commands[0..] == commands;
      for k := 0 to |commands|
        invariant Valid() && sent + Serving(w, commands[k..]) == old(sent) + Serving(w, commands)
      {
        ghost var before, rest := sent, Serving(w, commands[k + 1..]);
        assert commands[k..][0] == commands[k] && commands[k..][1..] == commands[k + 1..];
        match commands[k] {
          case Execute(id, work) =>
            var alive := Handle(w, id, work);
            ServingOn(before, Script(w, id, work), rest, sent, limit);
            if !alive { return; }
          case ShutDown(closing) =>
            Finish(w, closing);
            return;
          case Garbage =>
            Finish(w, Fails);
            return;
        }
      }
    }

    /** The whole process puts the messages of `Trace`, as far as the transport holds; and those carry the audio that each
        request's work makes, in order. */
    method Run(w: nat, loading: Lifecycle, commands: seq<Command>)
      requires Valid() && sent == []
      modifies this
      ensures Valid() && sent == Cut(Trace(w, loading, commands), limit)
      ensures loading.Done? ==> CarriesAudio(sent, commands, limit)
    {
      TraceCarries(w, commands, limit);
      if !loading.Done? {
        Finish(w, loading);
        assert [] + LastWord(w, loading) == LastWord(w, loading);
        return;
      }
      var first := Message(WorkerReady, FromWorker(w), None, Plain, 0);
      assert [] + [first] == [first];
      var ok := Put(first);
      if ok { Serve(w, commands); } else { CutLonger([first], Serving(w, commands), limit); }
    }
  }

  /* ---- What the parent can rely on ---- */

  // A stream that ended well but whose iterator raises on close.
  predicate SpoilsItsEnd(work: Work) {
    work.Streaming? && work.opens && work.ends && work.closeRaises
  }

  /** The messages of a request are some chunks and then one end, all naming it, exactly when closing an
      ended stream does not raise.  If it does, a second end follows the first. */
  lemma ScriptIsOkIff(w: nat, id: RequestId, work: Work)
    ensures StreamSystem.ScriptOk(Script(w, id, work), id, work.Streaming?) <==> !SpoilsItsEnd(work)
  {
    var script := Script(w, id, work);
    if SpoilsItsEnd(work) {
      assert script[|script| - 2].kind.StreamEnd?;
    } else if work.Streaming? {
      assert forall k :: 0 <= k < |script| - 1 ==> script[k] == Chunk(w, id, work.chunks[k]);
    }
  }

  // No earlier command ends the process, and no other names `id`.
  predicate Reaches(commands: seq<Command>, k: nat, id: RequestId)
    requires k < |commands|
  {
    && (forall j :: 0 <= j < k ==> commands[j].Execute?)
    && (forall j :: 0 <= j < |commands| && j != k && commands[j].Execute? ==> commands[j].id != id)
  }

  lemma ScriptFor(w: nat, id: RequestId, work: Work, other: RequestId)
    ensures For(other, Script(w, id, work)) == if other == id then Script(w, id, work) else []
  {
    ScriptNamed(w, id, work);
    if other == id { ForAll(id, Script(w, id, work)); } else { ForNone(other, Script(w, id, work)); }
  }

  lemma ScriptNamed(w: nat, id: RequestId, work: Work)
    ensures forall k :: 0 <= k < |Script(w, id, work)| ==> Script(w, id, work)[k].requestId == Some(id)
  {
  }

  lemma {:induction false} ServingElsewhere(w: nat, commands: seq<Command>, id: RequestId)
    requires forall j :: 0 <= j < |commands| && commands[j].Execute? ==> commands[j].id != id
    ensures For(id, Serving(w, commands)) == []
  {
    if commands != [] && commands[0].Execute? {
      ScriptFor(w, commands[0].id, commands[0].work, id);
      ForConcat(id, Script(w, commands[0].id, commands[0].work), Serving(w, commands[1..]));
      ServingElsewhere(w, commands[1..], id);
    }
  }

  lemma {:induction false} ServingScript(w: nat, commands: seq<Command>, k: nat, id: RequestId)
    requires k < |commands| && commands[k].Execute? && commands[k].id == id && Reaches(commands, k, id)
    ensures For(id, Serving(w, commands)) == Script(w, id, commands[k].work)
    decreases k
  {
    var first := commands[0];
    assert first.Execute?;
    ScriptFor(w, first.id, first.work, id);
    ForConcat(id, Script(w, first.id, first.work), Serving(w, commands[1..]));
    if k == 0 {
      forall j | 0 <= j < |commands[1..]| && commands[1..][j].Execute? ensures commands[1..][j].id != id {
        assert commands[1..][j] == commands[j + 1];
      }
      ServingElsewhere(w, commands[1..], id);
    } else {
      assert forall j :: 0 <= j < |commands[1..]| ==> commands[1..][j] == commands[j + 1];
      ServingScript(w, commands[1..], k - 1, id);
    }
  }

  /** The messages that carry the id of a request the process got to are its script, whatever was served
      before and after: so the parent's assumption about scripts holds of the whole process. */
  lemma TraceScript(w: nat, commands: seq<Command>, k: nat, id: RequestId)
    requires k < |commands| && commands[k].Execute? && commands[k].id == id && Reaches(commands, k, id)
    ensures For(id, Trace(w, Done, commands)) == Script(w, id, commands[k].work)
  {
    ServingScript(w, commands, k, id);
    ForConcat(id, [Message(WorkerReady, FromWorker(w), None, Plain, 0)], Serving(w, commands));
  }

  /** A shutdown command, or anything that is no request, is the last thing that the process reads: what it puts does not
      depend on what comes after. */
  lemma {:induction false} ReadsNoFurther(w: nat, commands: seq<Command>, j: nat)
    requires j < |commands| && !commands[j].Execute?
    ensures Serving(w, commands) == Serving(w, commands[..j + 1])
    ensures Trace(w, Done, commands) == Trace(w, Done, commands[..j + 1])
    decreases j
  {
    assert commands[..j + 1][0] == commands[0];
    if j > 0 && commands[0].Execute? {
      assert commands[..j + 1][1..] == commands[1..][..j];
      ReadsNoFurther(w, commands[1..], j - 1);
    }
  }

  lemma {:induction false} ServingNameless(w: nat, commands: seq<Command>, k: nat)
    requires k < |Serving(w, commands)| && Serving(w, commands)[k].requestId.None?
    ensures k == |Serving(w, commands)| - 1
    ensures Serving(w, commands)[k].kind.Error? || Serving(w, commands)[k].kind.ShutdownAck?
    decreases |commands|
  {
    if commands[0].Execute? {
      var script, rest := Script(w, commands[0].id, commands[0].work), Serving(w, commands[1..]);
      ScriptNamed(w, commands[0].id, commands[0].work);
      assert Serving(w, commands) == script + rest;
      ServingNameless(w, commands[1..], k - |script|);
    }
  }

  /** A message that names no request is the ready notice, which comes first, or the process's last word. */
  lemma NamelessFirstOrLast(w: nat, loading: Lifecycle, commands: seq<Command>, k: nat)
    requires k < |Trace(w, loading, commands)| && Trace(w, loading, commands)[k].requestId.None?
    ensures var ms := Trace(w, loading, commands);
      (k == 0 && loading.Done? && ms[k].kind.WorkerReady?) || (k == |ms| - 1 && (ms[k].kind.Error? || ms[k].kind.ShutdownAck?))
  {
    if loading.Done? && k > 0 { ServingNameless(w, commands, k - 1); }
  }
}
