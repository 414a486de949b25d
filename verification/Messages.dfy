/** The vocabulary shared by the scheduler, the worker processes and the API runtime. */
module Messages {

  datatype Option<+T> = None | Some(value: T)

  // Request ids are opaque tokens that the program only compares for equality.
  type RequestId = nat

  datatype Kind = WorkerReady | Result | StreamChunk | StreamEnd | Error | Cancelled | ShutdownAck

  // Who built a message: a worker (by its position in the worker tuple), the scheduler or the API runtime.
  datatype Source = FromWorker(index: nat) | FromScheduler | FromApi

  datatype Code =
    | QueueTimeout
    | InferenceTimeout
    | NoHealthyWorker
    | WorkerExited
    | WorkerTransportFailed
    | InvalidWorkerMessage
    | RequestIdMismatch
    | StreamBackpressureTimeout
    | BackendFailed

  // The part of a message that says why: an error code, or the stage at which a request was cancelled.
  datatype Note = Plain | Fault(code: Code) | StagePending | StageActive | StageShutdown

  datatype Message = Message(kind: Kind, source: Source, requestId: Option<RequestId>, note: Note, payload: int)

  // The kinds that end a request.
  predicate Terminal(kind: Kind) {
    kind.Result? || kind.Error? || kind.StreamEnd? || kind.Cancelled?
  }

  function Failure(source: Source, id: RequestId, code: Code): Message {
    Message(Error, source, Some(id), Fault(code), 0)
  }

  // The messages of `ms` that carry the id `id`, in order.
  function For(id: RequestId, ms: seq<Message>): seq<Message> {
    if ms == [] then []
    else (if ms[0].requestId == Some(id) then [ms[0]] else []) + For(id, ms[1..])
  }

  lemma {:induction false} ForConcat(id: RequestId, a: seq<Message>, b: seq<Message>)
    ensures For(id, a + b) == For(id, a) + For(id, b)
  {
    if a == [] {
      assert a + b == b;
    } else {
      assert (a + b)[0] == a[0] && (a + b)[1..] == a[1..] + b;
      ForConcat(id, a[1..], b);
    }
  }
}
