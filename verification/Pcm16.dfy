/** Sixteen-bit PCM: the two quantisers, their bytes, and streaming against one shot.  Samples are real
    numbers here; the rounding of floating-point products is not modelled. */
module Pcm16 {
  import opened Messages

  // What a float sample can be.
  datatype Sample = Finite(value: real) | PlusInfinity | MinusInfinity | NotANumber

  /* ---- Rounding ---- */

  // Python's `round`: to the nearest integer, and to the even one of two that are equally near.
  function Round(x: real): int {
    var below := x.Floor;
    var rest := x - below as real;
    if rest < 0.5 then below
    else if rest > 0.5 then below + 1
    else if below % 2 == 0 then below else below + 1
  }

  lemma RoundIsNearest(x: real, n: int)
    ensures -0.5 <= x - Round(x) as real <= 0.5
    ensures -0.5 < x - n as real < 0.5 ==> Round(x) == n
  {
  }

  lemma RoundIsMonotone(x: real, y: real)
    requires x <= y
    ensures Round(x) <= Round(y)
  {
    assert x.Floor <= y.Floor;
  }

  /* ---- One sample ---- */

  function Clip(x: real): real {
    if x > 1.0 then 1.0 else if x < -1.0 then -1.0 else x
  }

  function Quantize(x: real): int {
    Round(Clip(x) * 32767.0)
  }

  /** The quantised value is in the symmetric sixteen-bit range, at most half a step from the clipped sample,
      and larger samples give no smaller values. */
  lemma QuantizeIsAccurate(x: real, y: real)
    ensures -32767 <= Quantize(x) <= 32767
    ensures -0.5 <= Clip(x) * 32767.0 - Quantize(x) as real <= 0.5
    ensures x <= y ==> Quantize(x) <= Quantize(y)
    ensures x >= 1.0 ==> Quantize(x) == 32767
    ensures x <= -1.0 ==> Quantize(x) == -32767
  {
    var scaled := Clip(x) * 32767.0;
    assert -32767.0 <= scaled <= 32767.0;
    RoundIsNearest(scaled, 32767);
    RoundIsNearest(scaled, -32767);
    RoundIsMonotone(-32767.0, scaled);
    RoundIsMonotone(scaled, 32767.0);
    if x <= y {
      assert Clip(x) <= Clip(y);
      RoundIsMonotone(scaled, Clip(y) * 32767.0);
    }
  }

  /** A sample just between two steps goes to the even one. */
  lemma QuantizeTiesToEven(x: real, n: int)
    requires Clip(x) * 32767.0 == n as real + 0.5
    ensures Quantize(x) % 2 == 0 && Quantize(x) in {n, n + 1}
  {
  }

  /** Playing a quantised value back and quantising again changes nothing. */
  lemma QuantizeUndoes(q: int)
    requires -32767 <= q <= 32767
    ensures Quantize(q as real / 32767.0) == q
  {
    var x := q as real / 32767.0;
    assert x * 32767.0 == q as real;
    assert -1.0 <= x <= 1.0;
    RoundIsNearest(x * 32767.0, q);
  }

  // What the API makes of a sample: `min` and `max` put infinities at the ends, and let a NaN fall to the lower one.
  function ApiWord(s: Sample): int {
    match s
    case Finite(x) => Quantize(x)
    case PlusInfinity => 32767
    case MinusInfinity => -32767
    case NotANumber => -32767
  }

  /** Infinities are at the two ends of what finite samples give, and a NaN is at the lower one. */
  lemma SpecialsAtTheEnds(x: real)
    ensures ApiWord(MinusInfinity) <= ApiWord(Finite(x)) <= ApiWord(PlusInfinity)
    ensures ApiWord(MinusInfinity) == ApiWord(Finite(-1.0)) == ApiWord(NotANumber) && ApiWord(PlusInfinity) == ApiWord(Finite(1.0))
  {
    QuantizeIsAccurate(x, x);
    QuantizeIsAccurate(1.0, 1.0);
    QuantizeIsAccurate(-1.0, -1.0);
  }

  predicate AllFinite(samples: seq<Sample>) {
    forall k :: 0 <= k < |samples| ==> samples[k].Finite?
  }

  function ApiWords(samples: seq<Sample>): (r: seq<int>)
    ensures |r| == |samples|
  {
    seq(|samples|, k requires 0 <= k < |samples| => ApiWord(samples[k]))
  }

  /* ---- The two quantisers ---- */

  // `min(1.0, max(-1.0, x))`, with Python's comparisons.
  method ApiClip(s: Sample) returns (value: real)
    ensures s.Finite? ==> value == Clip(s.value)
    ensures s.PlusInfinity? ==> value == 1.0
    ensures s.MinusInfinity? || s.NotANumber? ==> value == -1.0
  {
    match s {
      case Finite(x) =>
        value := if x > -1.0 then x else -1.0;
        value := if value < 1.0 then value else 1.0;
      case PlusInfinity => value := 1.0;
      case MinusInfinity => value := -1.0;
      case NotANumber => value := -1.0;
    }
  }

  // Memory of a sixteen-bit two's complement word, lower byte first.
  function LittleEndian(word: int): seq<int> {
    var u := word % 0x1_0000;
    [u % 0x100, u / 0x100]
  }

  function BigEndian(word: int): seq<int> {
    var u := word % 0x1_0000;
    [u / 0x100, u % 0x100]
  }

  // An array of words as the host holds it.
  function Memory(words: seq<int>, little: bool): (r: seq<int>)
    ensures |r| == 2 * |words|
  {
    if words == [] then []
    else (if little then LittleEndian(words[0]) else BigEndian(words[0])) + Memory(words[1..], little)
  }

  function Swapped(bytes: seq<int>): seq<int> {
    if |bytes| < 2 then bytes else [bytes[1], bytes[0]] + Swapped(bytes[2..])
  }

  function Encode(words: seq<int>): seq<int> {
    Memory(words, true)
  }

  lemma {:induction false} SwappedMemory(words: seq<int>)
    ensures Swapped(Memory(words, false)) == Encode(words)
  {
    if words != [] {
      var rest := Memory(words[1..], false);
      assert Memory(words, false)[2..] == rest;
      SwappedMemory(words[1..]);
    }
  }

  /** The WAV writer fails exactly on a sample that is not finite; otherwise its bytes, on either kind of host,
      are those of the API. */
  method ClipAndQuantize(samples: seq<Sample>, littleHost: bool) returns (bytes: Option<seq<int>>)
    ensures bytes.None? <==> !AllFinite(samples)
    ensures bytes.Some? ==> bytes.value == Encode(ApiWords(samples))
  {
    var words: seq<int> := [];
    for k := 0 to |samples|
      invariant AllFinite(samples[..k]) && words == ApiWords(samples[..k])
    {
      if !samples[k].Finite? {
        assert !AllFinite(samples);
        return None;
      }
      var value := samples[k].value;
      if value > 1.0 { value := 1.0; } else if value < -1.0 { value := -1.0; }
      var quantized := Round(value * 32767.0);
      QuantizeIsAccurate(samples[k].value, 0.0);
      if quantized > 32767 { quantized := 32767; } else if quantized < -32768 { quantized := -32768; }
      words := words + [quantized];
    }
    assert samples[..|samples|] == samples;
    var memory := Memory(words, littleHost);
    if !littleHost {
      SwappedMemory(words);
      memory := Swapped(memory);
    }
    bytes := Some(memory);
  }

  method Pcm16Bytes(samples: seq<Sample>, littleHost: bool) returns (bytes: seq<int>)
    ensures bytes == Encode(ApiWords(samples))
  {
    var words: seq<int> := [];
    for k := 0 to |samples|
      invariant words == ApiWords(samples[..k])
    {
      var value := ApiClip(samples[k]);
      var quantized := Round(value * 32767.0);
      ClippedWord(samples[k], value);
      if quantized > 32767 { quantized := 32767; }
      if quantized < -32768 { quantized := -32768; }
      words := words + [quantized];
    }
    assert samples[..|samples|] == samples;
    bytes := Memory(words, littleHost);
    if !littleHost {
      SwappedMemory(words);
      bytes := Swapped(bytes);
    }
  }

  lemma ClippedWord(s: Sample, value: real)
    requires s.Finite? ==> value == Clip(s.value)
    requires s.PlusInfinity? ==> value == 1.0
    requires s.MinusInfinity? || s.NotANumber? ==> value == -1.0
    ensures Round(value * 32767.0) == ApiWord(s) && -32767 <= ApiWord(s) <= 32767
  {
    QuantizeIsAccurate(value, value);
    if s.Finite? { QuantizeIsAccurate(s.value, s.value); }
  }

  /* ---- Reading the bytes back ---- */

  function Decode(bytes: seq<int>): seq<int> {
    if |bytes| < 2 then []
    else
      var u := bytes[0] + 0x100 * bytes[1];
      [if u < 0x8000 then u else u - 0x1_0000] + Decode(bytes[2..])
  }

  predicate Words16(words: seq<int>) {
    forall k :: 0 <= k < |words| ==> -0x8000 <= words[k] < 0x8000
  }

  /** The bytes determine the words: reading them little end first gives every sixteen-bit value back. */
  lemma {:induction false} DecodeEncode(words: seq<int>)
    requires Words16(words)
    ensures Decode(Encode(words)) == words
  {
    if words != [] {
      assert Encode(words)[2..] == Encode(words[1..]);
      DecodeEncode(words[1..]);
      WordOfBytes(words[0]);
    }
  }

  // A sixteen-bit word from its two bytes.
  lemma WordOfBytes(word: int)
    requires -0x8000 <= word < 0x8000
    ensures var b := LittleEndian(word); var u := b[0] + 0x100 * b[1]; word == if u < 0x8000 then u else u - 0x1_0000
  {
  }

  /** Samples that are multiples of the step survive quantisation, encoding and decoding. */
  lemma BytesRoundTrip(words: seq<int>, samples: seq<Sample>)
    requires |samples| == |words|
    requires forall k :: 0 <= k < |words| ==> -32767 <= words[k] <= 32767 && samples[k] == Finite(words[k] as real / 32767.0)
    ensures Decode(Encode(ApiWords(samples))) == words
  {
    forall k | 0 <= k < |words| ensures ApiWords(samples)[k] == words[k] { QuantizeUndoes(words[k]); }
    assert ApiWords(samples) == words;
    DecodeEncode(words);
  }

  lemma {:induction false} EncodeConcat(a: seq<int>, b: seq<int>)
    ensures Encode(a + b) == Encode(a) + Encode(b)
  {
    if a == [] {
      assert a + b == b;
    } else {
      assert (a + b)[0] == a[0] && (a + b)[1..] == a[1..] + b;
      EncodeConcat(a[1..], b);
    }
  }

  /* ---- Streaming against one shot ---- */

  datatype Chunk = Chunk(samples: seq<Sample>, sequence: nat, isFinal: bool)

  function Joined(chunks: seq<Chunk>): seq<Sample> {
    if chunks == [] then [] else Joined(chunks[..|chunks| - 1]) + chunks[|chunks| - 1].samples
  }

  function StreamedBytes(chunks: seq<Chunk>): seq<int> {
    if chunks == [] then [] else StreamedBytes(chunks[..|chunks| - 1]) + Encode(ApiWords(chunks[|chunks| - 1].samples))
  }

  lemma {:induction false} JoinedBytes(chunks: seq<Chunk>)
    ensures StreamedBytes(chunks) == Encode(ApiWords(Joined(chunks)))
  {
    if chunks != [] {
      var front, last := Joined(chunks[..|chunks| - 1]), chunks[|chunks| - 1].samples;
      JoinedBytes(chunks[..|chunks| - 1]);
      assert ApiWords(front + last) == ApiWords(front) + ApiWords(last);
      EncodeConcat(ApiWords(front), ApiWords(last));
    }
  }

  // `chunks` are what comes before `start`: full but perhaps for the end of the samples, numbered, the last final.
  predicate CutUpTo(chunks: seq<Chunk>, samples: seq<Sample>, size: nat, start: nat) {
    && Joined(chunks) == samples[..Least(start, |samples|)]
    && forall k :: 0 <= k < |chunks| ==>
         && chunks[k].sequence == k
         && (chunks[k].isFinal <==> start >= |samples| && k == |chunks| - 1)
         && 0 < |chunks[k].samples| <= size
         && (k < |chunks| - 1 || start < |samples| ==> |chunks[k].samples| == size)
  }

  function Least(a: nat, b: nat): nat {
    if a < b then a else b
  }

  lemma CutNext(chunks: seq<Chunk>, samples: seq<Sample>, size: nat, start: nat)
    requires CutUpTo(chunks, samples, size, start) && start < |samples| && size > 0
    ensures var end := Least(start + size, |samples|);
      CutUpTo(chunks + [Chunk(samples[start..end], |chunks|, end == |samples|)], samples, size, start + size)
  {
    var end := Least(start + size, |samples|);
    var more := chunks + [Chunk(samples[start..end], |chunks|, end == |samples|)];
    assert more[..|more| - 1] == chunks;
    assert samples[..end] == samples[..start] + samples[start..end];
  }

  /** The chunks of the fake backend: full but for the last, none empty, numbered from 0, only the last one final,
      together the result; so for every chunk size the streamed bytes are those of the one-shot answer. */
  method FakeChunks(samples: seq<Sample>, size: nat) returns (chunks: seq<Chunk>)
    requires size > 0
    ensures Joined(chunks) == samples
    ensures StreamedBytes(chunks) == Encode(ApiWords(samples))
    ensures forall k :: 0 <= k < |chunks| ==>
      && chunks[k].sequence == k
      && (chunks[k].isFinal <==> k == |chunks| - 1)
      && 0 < |chunks[k].samples| <= size && (k < |chunks| - 1 ==> |chunks[k].samples| == size)
  {
    chunks := [];
    var start := 0;
    while start < |samples|
      invariant start == Times(|chunks|, size) && CutUpTo(chunks, samples, size, start)
      decreases |samples| - start
    {
      var end := if start + size < |samples| then start + size else |samples|;
      SequenceOf(|chunks|, size, start);
      CutNext(chunks, samples, size, start);
      chunks := chunks + [Chunk(samples[start..end], start / size, end == |samples|)];
      start := start + size;
    }
    assert samples[..|samples|] == samples;
    JoinedBytes(chunks);
  }

  lemma Distribute(a: int, b: int, c: int)
    ensures a * (b - c) == a * b - a * c
  {
  }

  lemma {:induction false} AtLeast(a: nat, d: nat)
    requires d >= 1
    ensures a * d >= a
  {
    if d > 1 { AtLeast(a, d - 1); Distribute(a, d, 1); }
  }

  lemma QuotientIs(size: nat, q: nat, r: nat, k: nat)
    requires size * k == size * q + r && r < size
    ensures q == k
  {
    if q < k {
      Distribute(size, k, q);
      AtLeast(size, k - q);
    }
    if k < q {
      Distribute(size, q, k);
      AtLeast(size, q - k);
    }
  }

  // Where chunk `k` starts.
  function Times(k: nat, size: nat): nat {
    if k == 0 then 0 else Times(k - 1, size) + size
  }

  lemma {:induction false} TimesIsProduct(k: nat, size: nat)
    ensures size * k == Times(k, size)
  {
    if k > 0 {
      TimesIsProduct(k - 1, size);
      Distribute(size, k, 1);
    }
  }

  lemma SequenceOf(k: nat, size: nat, start: nat)
    requires size > 0 && start == Times(k, size)
    ensures start / size == k
  {
    TimesIsProduct(k, size);
    var q, r := start / size, start % size;
    assert start == size * q + r && r < size;
    QuotientIs(size, q, r, k);
  }
}
