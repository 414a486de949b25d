/** The adapter that turns the chunks of the upstream model into numbered audio chunks, holding one back so
    that it knows which is the last. */
module Lookahead {

  /* ---- One waveform ---- */

  // What `float` and `isfinite` make of an element.
  datatype Element = Number(value: real) | NotFinite | NotNumeric | Nested

  // What the upstream model hands over.
  datatype Waveform =
    | Missing
    | Dimensions(count: nat)
    | Unreadable
    | NotAList
    | Elements(elements: seq<Element>)

  datatype Fault = EmptyWaveform | InvalidShape | Unlisted | InvalidType | InvalidSample | NonFinite

  datatype Converted = Samples(values: seq<real>) | Rejected(fault: Fault)

  function ElementFault(e: Element): Fault
    requires !e.Number?
  {
    match e
    case NotFinite => NonFinite
    case NotNumeric => InvalidSample
    case Nested => InvalidShape
  }

  function Read(elements: seq<Element>): Converted {
    if elements == [] then Samples([])
    else if !elements[0].Number? then Rejected(ElementFault(elements[0]))
    else
      var rest := Read(elements[1..]);
      if rest.Samples? then Samples([elements[0].value] + rest.values) else rest
  }

  function Convert(w: Waveform): Converted {
    match w
    case Missing => Rejected(EmptyWaveform)
    case Dimensions(_) => Rejected(InvalidShape)
    case Unreadable => Rejected(Unlisted)
    case NotAList => Rejected(InvalidType)
    case Elements(elements) => if elements == [] then Rejected(EmptyWaveform) else Read(elements)
  }

  /** A list is converted exactly when all of it is finite numbers, element by element; otherwise the first
      element that is none decides the error. */
  lemma {:induction false} ReadIff(elements: seq<Element>)
    ensures var r := Read(elements);
      && (r.Samples? <==> forall k :: 0 <= k < |elements| ==> elements[k].Number?)
      && (r.Samples? ==> |r.values| == |elements| && forall k :: 0 <= k < |elements| ==> r.values[k] == elements[k].value)
      && (r.Rejected? ==> exists k :: 0 <= k < |elements| && !elements[k].Number? && r.fault == ElementFault(elements[k])
                                 && forall j :: 0 <= j < k ==> elements[j].Number?)
  {
    if elements != [] && elements[0].Number? {
      ReadIff(elements[1..]);
      var r := Read(elements[1..]);
      if r.Rejected? {
        var k :| 0 <= k < |elements[1..]| && !elements[1..][k].Number? && r.fault == ElementFault(elements[1..][k])
                 && forall j :: 0 <= j < k ==> elements[1..][j].Number?;
        assert elements[k + 1] == elements[1..][k];
        assert forall j :: 0 < j <= k ==> elements[j] == elements[1..][j - 1];
      } else {
        assert forall j :: 0 < j < |elements| ==> elements[j] == elements[1..][j - 1];
      }
    }
  }

  /** A waveform is converted exactly when it is a non-empty list of finite numbers, and then to those numbers. */
  lemma ConvertIff(w: Waveform)
    ensures var r := Convert(w);
      && (r.Samples? <==> w.Elements? && w.elements != [] && forall k :: 0 <= k < |w.elements| ==> w.elements[k].Number?)
      && (r.Samples? ==> |r.values| == |w.elements| && forall k :: 0 <= k < |r.values| ==> r.values[k] == w.elements[k].value)
  {
    if w.Elements? { ReadIff(w.elements); }
  }

  method WaveformToSamples(w: Waveform) returns (r: Converted)
    ensures r == Convert(w)
  {
    match w {
      case Missing => return Rejected(EmptyWaveform);
      case Dimensions(count) => return Rejected(InvalidShape);
      case Unreadable => return Rejected(Unlisted);
      case NotAList => return Rejected(InvalidType);
      case Elements(elements) =>
        if elements == [] { return Rejected(EmptyWaveform); }
        var samples: seq<real> := [];
        for k := 0 to |elements|
          invariant Prepend(samples, Read(elements[k..])) == Read(elements)
        {
          var e := elements[k];
          assert elements[k..][0] == e && elements[k..][1..] == elements[k + 1..];
          if !e.Number? { return Rejected(ElementFault(e)); }
          PrependOne(samples, e.value, Read(elements[k + 1..]));
          samples := samples + [e.value];
        }
        assert elements[|elements|..] == [];
        assert samples + [] == samples;
        r := Samples(samples);
    }
  }

  function Prepend(samples: seq<real>, r: Converted): Converted {
    if r.Samples? then Samples(samples + r.values) else r
  }

  lemma PrependOne(samples: seq<real>, x: real, r: Converted)
    ensures Prepend(samples, Prepend([x], r)) == Prepend(samples + [x], r)
  {
    if r.Samples? { assert samples + ([x] + r.values) == samples + [x] + r.values; }
  }

  /* ---- The stream ---- */

  // The upstream iterator: whether it opens, what it yields, whether it then ends or raises, and whether closing it raises.
  datatype Upstream = Upstream(opens: bool, items: seq<Waveform>, ends: bool, closeFails: bool)

  datatype AudioChunk = AudioChunk(samples: seq<real>, sequence: nat, isFinal: bool)

  datatype Resumed = Yielded(chunk: AudioChunk) | Exhausted | Raised

  // How many items from the start can be converted.
  function GoodCount(items: seq<Waveform>): (r: nat)
    ensures r <= |items|
    ensures forall k :: 0 <= k < r ==> Convert(items[k]).Samples?
    ensures r < |items| ==> Convert(items[r]).Rejected?
  {
    if items == [] || Convert(items[0]).Rejected? then 0 else 1 + GoodCount(items[1..])
  }

  // How many chunks the stream can yield: when the upstream raises, the item held back is never sent.
  function Total(up: Upstream): (r: nat)
    ensures r <= GoodCount(up.items) && (r == |up.items| ==> r == 0 || up.ends)
  {
    if !up.opens || up.items == [] then 0
    else if !up.ends && GoodCount(up.items) == |up.items| then |up.items| - 1
    else GoodCount(up.items)
  }

  function ChunkAt(up: Upstream, k: nat): AudioChunk
    requires k < Total(up)
  {
    AudioChunk(Convert(up.items[k]).values, k, up.ends && k == |up.items| - 1)
  }

  function Chunks(up: Upstream): (r: seq<AudioChunk>)
    ensures |r| == Total(up)
  {
    seq(Total(up), k requires 0 <= k < Total(up) => ChunkAt(up, k))
  }

  predicate EndsWell(up: Upstream) {
    up.opens && up.items != [] && up.ends && GoodCount(up.items) == |up.items| && !up.closeFails
  }

  // Where the generator is suspended: before its first statement, after a chunk with the next one in hand,
  // after the last chunk, or nowhere any more.
  datatype Phase = Fresh | Holding | Sent | Over

  /** The generator. */
  class Adapter {
    const up: Upstream
    var phase: Phase
    var current: Waveform
    var following: Waveform
    var sequence: nat
    var pulled: nat
    var begun: bool
    var released: bool
    var emitted: seq<AudioChunk>

    ghost predicate Valid()
      reads this
    {
      && |emitted| <= Total(up) && emitted == Chunks(up)[..|emitted|]
      && pulled <= |up.items| && pulled <= |emitted| + 2
      && match phase
         case Fresh => emitted == [] && pulled == 0 && !begun && !released
         case Holding =>
           && begun && !released && up.opens
           && |emitted| == sequence + 1 && pulled == |emitted| + 1 && following == up.items[|emitted|]
         case Sent => begun && !released && up.opens && up.ends && |emitted| == |up.items| == pulled && pulled > 0
         case Over => released == begun
    }

    constructor (up: Upstream)
      ensures Valid() && this.up == up && phase == Fresh && emitted == []
    {
      this.up := up;
      phase, current, following, sequence, pulled := Fresh, Missing, Missing, 0, 0;
      begun, released, emitted := false, false, [];
    }

    // The consumer asks for a chunk.  Having been asked for `k + 1` chunks, the adapter has read at most `k + 2` items.
    method Next() returns (r: Resumed)
      requires Valid()
      modifies this
      ensures Valid() && pulled <= |old(emitted)| + 2
      ensures var k := |old(emitted)|;
        if old(phase).Over? then r == Exhausted && phase.Over? && emitted == old(emitted)
        else if k < Total(up) then r == Yielded(ChunkAt(up, k)) && emitted == old(emitted) + [r.chunk] && !phase.Over?
        else phase.Over? && emitted == old(emitted) && r == if EndsWell(up) then Exhausted else Raised
    {
      match phase {
        case Over => return Exhausted;
        case Sent =>
          Release();
          return if up.closeFails then Raised else Exhausted;
        case Fresh =>
          if !up.opens {
            phase := Over;
            return Raised;
          }
          begun := true;
          if up.items == [] {
            Release();
            return Raised;
          }
          current, pulled, sequence := up.items[0], 1, 0;
        case Holding => current, sequence := following, sequence + 1;
      }
      r := Turn();
    }

    // One turn of the generator's loop.
    method Turn() returns (r: Resumed)
      requires begun && !released && up.opens && |emitted| <= Total(up) && emitted == Chunks(up)[..|emitted|]
      requires sequence == |emitted| < |up.items|
      requires pulled == sequence + 1 && current == up.items[sequence]
      modifies this
      ensures Valid() && pulled <= |old(emitted)| + 2
      ensures var k := |old(emitted)|;
        if k < Total(up) then r == Yielded(ChunkAt(up, k)) && emitted == old(emitted) + [r.chunk] && !phase.Over?
        else phase.Over? && emitted == old(emitted) && r == Raised && !EndsWell(up)
    {
      var last := pulled == |up.items|;
      if last {
        if !up.ends {
          Release();
          return Raised;
        }
      } else {
        following, pulled := up.items[pulled], pulled + 1;
      }
      var converted := WaveformToSamples(current);
      if converted.Rejected? {
        Release();
        return Raised;
      }
      var chunk := AudioChunk(converted.values, sequence, last);
      assert chunk == ChunkAt(up, sequence);
      emitted := emitted + [chunk];
      phase := if last then Sent else Holding;
      r := Yielded(chunk);
    }

    // The `finally` block: the upstream iterator is closed.
    method Release()
      modifies this`released, this`phase
      ensures released && phase == Over
    {
      released, phase := true, Over;
    }

    // The consumer stops early.  An adapter that was never asked for a chunk never opens the upstream.
    method Close() returns (raised: bool)
      requires Valid()
      modifies this
      ensures Valid() && phase.Over? && emitted == old(emitted) && begun == old(begun) && pulled == old(pulled)
      ensures raised <==> (old(phase).Holding? || old(phase).Sent?) && up.closeFails
    {
      raised := false;
      if phase.Holding? || phase.Sent? {
        Release();
        raised := up.closeFails;
      }
      phase := Over;
    }
  }

  /** A consumer that asks for `demand` chunks and then closes the stream receives, whatever the upstream does,
      the first items converted, in order, numbered from 0; the last flag is on the last item of an upstream
      that ended, and nowhere else; at most one item more than was asked for has been read, and the upstream
      is closed again if it was begun. */
  method Play(up: Upstream, demand: nat) returns (out: seq<AudioChunk>, read: nat, left: bool)
    ensures out == Chunks(up)[..if demand < Total(up) then demand else Total(up)]
    ensures |out| <= |up.items| && forall k :: 0 <= k < |out| ==>
      && Convert(up.items[k]) == Samples(out[k].samples)
      && out[k].sequence == k
      && (out[k].isFinal <==> up.ends && k == |up.items| - 1)
    ensures read <= |up.items| && read <= demand + 1 && (demand == 0 ==> read == 0)
    ensures !left
  {
    var adapter := new Adapter(up);
    out := [];
    var asked, done := 0, false;
    while asked < demand && !done
      invariant fresh(adapter) && adapter.Valid() && adapter.up == up && adapter.emitted == out
      invariant 0 <= asked <= demand && adapter.pulled <= asked + 1 && done == adapter.phase.Over?
      invariant asked == 0 ==> adapter.phase.Fresh?
      invariant if done then |out| == Total(up) < asked else |out| == asked
      decreases demand - asked
    {
      var r := adapter.Next();
      asked := asked + 1;
      if r.Yielded? { out := out + [r.chunk]; } else { done := true; }
    }
    var raised := adapter.Close();
    read, left := adapter.pulled, adapter.begun && !adapter.released;
  }

  lemma {:induction false} AllGood(items: seq<Waveform>)
    requires forall k :: 0 <= k < |items| ==> Convert(items[k]).Samples?
    ensures GoodCount(items) == |items|
  {
    if items != [] { AllGood(items[1..]); }
  }

  /** Of the items that can be converted, one is lost exactly when the upstream raises after items that all can: the
      one held back.  Otherwise all of them, up to the first that cannot, come out. */
  lemma LosesOneIff(up: Upstream)
    requires up.opens
    ensures |Chunks(up)| < GoodCount(up.items)
      <==> !up.ends && up.items != [] && forall k :: 0 <= k < |up.items| ==> Convert(up.items[k]).Samples?
    ensures |Chunks(up)| < GoodCount(up.items) ==> |Chunks(up)| == GoodCount(up.items) - 1
  {
    if forall k :: 0 <= k < |up.items| ==> Convert(up.items[k]).Samples? { AllGood(up.items); }
  }

  /** When the upstream raises after `n` good items only `n - 1` chunks come out: the one held back is lost. */
  lemma RaisingLosesOne(up: Upstream)
    requires up.opens && !up.ends && up.items != [] && forall k :: 0 <= k < |up.items| ==> Convert(up.items[k]).Samples?
    ensures |Chunks(up)| == |up.items| - 1
    ensures forall k :: 0 <= k < |Chunks(up)| ==> !Chunks(up)[k].isFinal
  {
    AllGood(up.items);
  }
}
