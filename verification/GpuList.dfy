/** The text forms of the GPU list and the worker count, and the parsers that read them back. */
module GpuList {
  import opened Messages

  // A configuration value, or the error the parser raises.
  datatype Parsed<T> = Parsed(value: T) | ConfigurationError

  // A member of a list given as a value.
  datatype Member = Absent | Flag(on: bool) | Number(n: int) | Text(text: string)

  // What may be configured: nothing, a text, or a list.  Other values are read through their text.
  datatype Value = Unset | Spelled(text: string) | Listed(members: seq<Member>)

  /* ---- Texts ---- */

  // Python's white space.
  predicate IsSpace(c: char) {
    var u := c as int;
    || 9 <= u <= 13 || 28 <= u <= 32 || u == 0x85 || u == 0xA0 || u == 0x1680
    || 0x2000 <= u <= 0x200A || u == 0x2028 || u == 0x2029 || u == 0x202F || u == 0x205F || u == 0x3000
  }

  function Strip(s: string): string {
    if s == [] then []
    else if IsSpace(s[0]) then Strip(s[1..])
    else if IsSpace(s[|s| - 1]) then Strip(s[..|s| - 1])
    else s
  }

  predicate IsDigit(c: char) {
    '0' <= c <= '9'
  }

  predicate IsInteger(s: string) {
    s != [] && forall k :: 0 <= k < |s| ==> IsDigit(s[k])
  }

  function ToInt(s: string): nat
    requires forall k :: 0 <= k < |s| ==> IsDigit(s[k])
  {
    if s == [] then 0
    else
      assert IsDigit(s[|s| - 1]);
      10 * ToInt(s[..|s| - 1]) + (s[|s| - 1] as int - '0' as int)
  }

  function Digit(d: nat): char
    requires d < 10
  {
    ('0' as int + d) as char
  }

  function Decimal(n: nat): (s: string)
    ensures IsInteger(s)
  {
    if n < 10 then [Digit(n)] else Decimal(n / 10) + [Digit(n % 10)]
  }

  lemma {:induction false} DecimalReadsBack(n: nat)
    ensures ToInt(Decimal(n)) == n
  {
    if n < 10 {
      assert ToInt([]) == 0 && [Digit(n)][..0] == [];
    } else {
      DecimalReadsBack(n / 10);
      assert Decimal(n)[..|Decimal(n)| - 1] == Decimal(n / 10);
    }
  }

  function Split(s: string): (r: seq<string>)
    ensures r != []
  {
    if s == [] then [[]]
    else if s[0] == ',' then [[]] + Split(s[1..])
    else
      var r := Split(s[1..]);
      [[s[0]] + r[0]] + r[1..]
  }

  function Join(texts: seq<string>): string {
    if texts == [] then []
    else if |texts| == 1 then texts[0]
    else texts[0] + "," + Join(texts[1..])
  }

  lemma {:induction false} SplitPiece(a: string, rest: string)
    requires ',' !in a
    ensures Split(a) == [a] && Split(a + "," + rest) == [a] + Split(rest)
  {
    var s := a + "," + rest;
    if a == [] {
      assert s[1..] == rest;
    } else {
      assert s[0] == a[0] && s[1..] == a[1..] + "," + rest;
      SplitPiece(a[1..], rest);
      assert [a[0]] + a[1..] == a;
    }
  }

  lemma {:induction false} SplitJoin(texts: seq<string>)
    requires texts != [] && forall k :: 0 <= k < |texts| ==> ',' !in texts[k]
    ensures Split(Join(texts)) == texts
  {
    if |texts| == 1 {
      SplitPiece(texts[0], []);
    } else {
      SplitPiece(texts[0], Join(texts[1..]));
      SplitJoin(texts[1..]);
    }
  }

  /* ---- The printers ---- */

  function Decimals(indices: seq<nat>): (r: seq<string>)
    ensures |r| == |indices|
  {
    seq(|indices|, k requires 0 <= k < |indices| => Decimal(indices[k]))
  }

  function FormatGpuDevices(indices: Option<seq<nat>>): string {
    if indices.None? then "auto" else Join(Decimals(indices.value))
  }

  function FormatWorkers(count: Option<nat>): string {
    if count.None? then "auto" else Decimal(count.value)
  }

  /* ---- The parsers ---- */

  predicate Distinct(xs: seq<nat>) {
    forall i, j :: 0 <= i < j < |xs| ==> xs[i] != xs[j]
  }

  function MemberText(m: Member): Option<string> {
    match m
    case Absent => None
    case Flag(_) => None
    case Number(n) => Some(if n < 0 then "-" + Decimal(-n) else Decimal(n))
    case Text(text) => Some(Strip(text))
  }

  function Index(m: Member): Option<nat> {
    var text := MemberText(m);
    if text.Some? && IsInteger(text.value) then Some(ToInt(text.value)) else None
  }

  // The indices of a list, when it is one: every member an index, and no two the same.
  ghost predicate Lists(members: seq<Member>, indices: seq<nat>) {
    && |indices| == |members| && indices != []
    && (forall k :: 0 <= k < |members| ==> Index(members[k]) == Some(indices[k]))
    && Distinct(indices)
  }

  // The members of a value, unless it asks for automatic selection.
  function Members(value: Value): Option<seq<Member>> {
    match value
    case Unset => None
    case Listed(members) => Some(members)
    case Spelled(text) =>
      var trimmed := Strip(text);
      if trimmed == [] || trimmed == "auto" then None
      else
        var pieces := Split(trimmed);
        Some(seq(|pieces|, k requires 0 <= k < |pieces| => Text(pieces[k])))
  }

  function Values(xs: seq<nat>): set<nat> {
    set x | x in xs
  }

  lemma {:induction false} ValuesOfDistinct(xs: seq<nat>)
    ensures |Values(xs)| <= |xs|
    ensures |Values(xs)| == |xs| <==> Distinct(xs)
  {
    if xs == [] {
      assert Values(xs) == {};
    } else {
      var init, last := xs[..|xs| - 1], xs[|xs| - 1];
      ValuesOfDistinct(init);
      assert xs == init + [last];
      assert Values(xs) == Values(init) + {last};
      if last in init {
        assert Values(init) + {last} == Values(init);
        var i :| 0 <= i < |init| && init[i] == last;
        assert xs[i] == xs[|xs| - 1];
      } else {
        DistinctAppend(init, last);
      }
    }
  }

  lemma DistinctAppend(xs: seq<nat>, x: nat)
    requires x !in xs
    ensures Distinct(xs + [x]) <==> Distinct(xs)
  {
    assert forall k :: 0 <= k < |xs| ==> (xs + [x])[k] == xs[k];
  }

  /** Automatic selection is recognised; otherwise the indices come back exactly when the members are a
      non-empty list of distinct naturals, and everything else is an error. */
  method ParseGpuDevices(value: Value) returns (r: Parsed<Option<seq<nat>>>)
    ensures Members(value).None? ==> r == Parsed(None)
    ensures Members(value).Some? && r.Parsed? ==> r.value.Some? && Lists(Members(value).value, r.value.value)
    ensures Members(value).Some? && r == ConfigurationError ==> forall xs :: !Lists(Members(value).value, xs)
  {
    var given := Members(value);
    if given.None? { return Parsed(None); }
    var members := given.value;
    if members == [] { return ConfigurationError; }
    var parsed: seq<nat> := [];
    for k := 0 to |members|
      invariant |parsed| == k && forall j :: 0 <= j < k ==> Index(members[j]) == Some(parsed[j])
    {
      var text := MemberText(members[k]);
      if text.None? || !IsInteger(text.value) {
        assert Index(members[k]).None?;
        return ConfigurationError;
      }
      parsed := parsed + [ToInt(text.value)];
    }
    ValuesOfDistinct(parsed);
    if |Values(parsed)| != |parsed| {
      OnlyList(members, parsed);
      return ConfigurationError;
    }
    r := Parsed(Some(parsed));
  }

  lemma OnlyList(members: seq<Member>, xs: seq<nat>)
    requires |xs| == |members| && forall k :: 0 <= k < |members| ==> Index(members[k]) == Some(xs[k])
    ensures forall ys :: Lists(members, ys) ==> ys == xs
  {
    forall ys | Lists(members, ys) ensures ys == xs {
      forall k | 0 <= k < |xs| ensures ys[k] == xs[k] {
        assert Index(members[k]) == Some(ys[k]);
      }
    }
  }

  // What `ParseGpuDevices` answers for a text.
  ghost predicate Reads(text: string, indices: Option<seq<nat>>) {
    var members := Members(Spelled(text));
    if indices.None? then members.None? else members.Some? && Lists(members.value, indices.value)
  }

  function ParseWorkers(value: Member): (r: Parsed<Option<nat>>)
    ensures r.Parsed? && r.value.Some? ==> r.value.value > 0
  {
    match value
    case Absent => Parsed(None)
    case Flag(_) => ConfigurationError
    case Number(n) => if n <= 0 then ConfigurationError else Parsed(Some(n))
    case Text(text) =>
      var trimmed := Strip(text);
      if trimmed == [] || trimmed == "auto" then Parsed(None)
      else if !IsInteger(trimmed) || ToInt(trimmed) == 0 then ConfigurationError
      else Parsed(Some(ToInt(trimmed)))
  }

  /* ---- They undo each other ---- */

  lemma DigitsAreNoSpace(s: string)
    requires s != [] && IsDigit(s[0]) && IsDigit(s[|s| - 1])
    ensures Strip(s) == s && s != "auto"
  {
  }

  lemma {:induction false} JoinEnds(texts: seq<string>)
    requires texts != [] && forall k :: 0 <= k < |texts| ==> IsInteger(texts[k])
    ensures var s := Join(texts); s != [] && IsDigit(s[0]) && IsDigit(s[|s| - 1])
  {
    if |texts| > 1 { JoinEnds(texts[1..]); }
  }

  // The members that a printed list is read as.
  lemma PrintedMembers(indices: seq<nat>)
    requires indices != []
    ensures var members := Members(Spelled(FormatGpuDevices(Some(indices))));
      && members.Some? && |members.value| == |indices|
      && forall k :: 0 <= k < |indices| ==> Index(members.value[k]) == Some(indices[k])
  {
    var texts := Decimals(indices);
    JoinEnds(texts);
    DigitsAreNoSpace(Join(texts));
    SplitJoin(texts);
    forall k | 0 <= k < |indices| ensures Index(Text(texts[k])) == Some(indices[k]) {
      DigitsAreNoSpace(texts[k]);
      DecimalReadsBack(indices[k]);
    }
  }

  /** Parsing a printed GPU list gives it back exactly when it is `auto` or a non-empty list of distinct
      indices: an empty list prints as nothing and is read as `auto`, and a repetition is refused. */
  lemma GpuRoundTripIff(indices: Option<seq<nat>>)
    ensures Reads(FormatGpuDevices(indices), indices)
      <==> indices.None? || (indices.value != [] && Distinct(indices.value))
    ensures indices == Some([]) ==> Reads(FormatGpuDevices(indices), None)
  {
    if indices.None? {
      assert Strip("auto") == "auto";
    } else if indices.value != [] {
      PrintedMembers(indices.value);
    }
  }

  /** A text is read as at most one list, so the parser's answer is the only one. */
  lemma ReadsOnce(text: string, a: Option<seq<nat>>, b: Option<seq<nat>>)
    requires Reads(text, a) && Reads(text, b)
    ensures a == b
  {
    if a.Some? { OnlyList(Members(Spelled(text)).value, a.value); }
  }

  /** Whatever text was accepted, printing what was read and reading it again gives the same. */
  lemma GpuNormalForm(text: string, indices: Option<seq<nat>>)
    requires Reads(text, indices)
    ensures Reads(FormatGpuDevices(indices), indices)
  {
    GpuRoundTripIff(indices);
  }

  /** Parsing a printed worker count gives it back exactly when it is `auto` or positive. */
  lemma WorkersRoundTripIff(count: Option<nat>)
    ensures ParseWorkers(Text(FormatWorkers(count))) == Parsed(count) <==> count.None? || count.value > 0
    ensures count == Some(0) ==> ParseWorkers(Text(FormatWorkers(count))) == ConfigurationError
  {
    if count.None? {
      assert Strip("auto") == "auto";
    } else {
      DigitsAreNoSpace(Decimal(count.value));
      DecimalReadsBack(count.value);
    }
  }

  /* ---- Which texts are a worker count ---- */

  predicate Spaces(s: string) {
    forall k :: 0 <= k < |s| ==> IsSpace(s[k])
  }

  function Zeros(k: nat): (r: string)
    ensures |r| == k && forall i :: 0 <= i < k ==> r[i] == '0'
  {
    seq(k, i => '0')
  }

  lemma {:induction false} StripParts(s: string) returns (a: string, b: string)
    ensures Spaces(a) && Spaces(b) && s == a + Strip(s) + b
  {
    if s == [] {
      a, b := [], [];
    } else if IsSpace(s[0]) {
      a, b := StripParts(s[1..]);
      a := [s[0]] + a;
      assert s == [s[0]] + s[1..];
    } else if IsSpace(s[|s| - 1]) {
      a, b := StripParts(s[..|s| - 1]);
      b := b + [s[|s| - 1]];
      assert s == s[..|s| - 1] + [s[|s| - 1]];
    } else {
      a, b := [], [];
    }
  }

  lemma {:induction false} StripPadded(a: string, s: string, b: string)
    requires Spaces(a) && Spaces(b) && s != [] && IsDigit(s[0]) && IsDigit(s[|s| - 1])
    ensures Strip(a + s + b) == s
    decreases |a| + |b|
  {
    var padded := a + s + b;
    if a != [] {
      assert padded[0] == a[0] && padded[1..] == a[1..] + s + b;
      StripPadded(a[1..], s, b);
    } else if b != [] {
      assert padded[0] == s[0] && padded[|padded| - 1] == b[|b| - 1];
      assert padded[..|padded| - 1] == a + s + b[..|b| - 1];
      StripPadded(a, s, b[..|b| - 1]);
    } else {
      assert padded == s;
    }
  }

  lemma {:induction false} NothingButZeros(s: string)
    requires (forall k :: 0 <= k < |s| ==> IsDigit(s[k])) && ToInt(s) == 0
    ensures s == Zeros(|s|)
  {
    if s != [] {
      assert IsDigit(s[|s| - 1]);
      NothingButZeros(s[..|s| - 1]);
      assert s == s[..|s| - 1] + [s[|s| - 1]];
    }
  }

  // A numeral is its value's decimal form after some zeros.
  lemma {:induction false} Numeral(s: string) returns (k: nat)
    requires IsInteger(s) && ToInt(s) > 0
    ensures s == Zeros(k) + Decimal(ToInt(s))
  {
    var init, last := s[..|s| - 1], s[|s| - 1];
    assert IsDigit(last) && s == init + [last];
    var d := last as int - '0' as int;
    assert ToInt(s) == 10 * ToInt(init) + d && Digit(d) == last;
    if ToInt(init) == 0 {
      NothingButZeros(init);
      k := |init|;
    } else {
      k := Numeral(init);
      assert Decimal(ToInt(s)) == Decimal(ToInt(init)) + [last];
      assert s == Zeros(k) + (Decimal(ToInt(init)) + [last]);
    }
  }

  lemma {:induction false} ZerosAddNothing(k: nat, n: nat)
    ensures IsInteger(Zeros(k) + Decimal(n)) && ToInt(Zeros(k) + Decimal(n)) == n
    decreases n
  {
    var s := Zeros(k) + Decimal(n);
    if n < 10 {
      assert s[..|s| - 1] == Zeros(k);
      ZerosAreZero(k);
    } else {
      assert s[..|s| - 1] == Zeros(k) + Decimal(n / 10);
      ZerosAddNothing(k, n / 10);
    }
  }

  lemma {:induction false} ZerosAreZero(k: nat)
    ensures ToInt(Zeros(k)) == 0
  {
    if k > 0 {
      assert Zeros(k)[..k - 1] == Zeros(k - 1);
      ZerosAreZero(k - 1);
    }
  }

  predicate IsPadded(text: string, n: nat, a: string, k: nat, b: string) {
    Spaces(a) && Spaces(b) && text == a + (Zeros(k) + Decimal(n)) + b
  }

  /** A text is read as the positive count `n` exactly when it is the decimal form of `n`, after any zeros and within any
      white space. */
  lemma WorkersTextIff(text: string, n: nat)
    requires n > 0
    ensures ParseWorkers(Text(text)) == Parsed(Some(n))
      <==> exists a: string, k: nat, b: string :: IsPadded(text, n, a, k, b)
  {
    if ParseWorkers(Text(text)) == Parsed(Some(n)) {
      var a, b := StripParts(text);
      var k := Numeral(Strip(text));
      assert IsPadded(text, n, a, k, b);
    }
    if a: string, k: nat, b: string :| IsPadded(text, n, a, k, b) {
      ZerosAddNothing(k, n);
      StripPadded(a, Zeros(k) + Decimal(n), b);
    }
  }

  // The digits of a number are zeros and its decimal form.
  lemma NumeralOf(s: string) returns (k: nat)
    requires IsInteger(s)
    ensures s == Zeros(k) + Decimal(ToInt(s))
  {
    if ToInt(s) > 0 {
      k := Numeral(s);
    } else {
      NothingButZeros(s);
      k := |s| - 1;
      assert Zeros(|s|) == Zeros(k) + "0";
    }
  }

  /** A member of a list is read as the index `n` exactly when it is the decimal form of `n`, after any zeros and within any
      white space. */
  lemma IndexTextIff(text: string, n: nat)
    ensures Index(Text(text)) == Some(n) <==> exists a: string, k: nat, b: string :: IsPadded(text, n, a, k, b)
  {
    if Index(Text(text)) == Some(n) {
      var a, b := StripParts(text);
      var k := NumeralOf(Strip(text));
      assert IsPadded(text, n, a, k, b);
    }
    if a: string, k: nat, b: string :| IsPadded(text, n, a, k, b) {
      ZerosAddNothing(k, n);
      DigitsAreNoSpace(Zeros(k) + Decimal(n));
      StripPadded(a, Zeros(k) + Decimal(n), b);
    }
  }
}
