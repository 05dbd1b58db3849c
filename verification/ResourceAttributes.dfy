/**
 LookupResourceAttribute: one attribute out of a comma-separated list of key=value segments
 (src/Elastic.OpenTelemetry.Core/Configuration/CompositeElasticOpenTelemetryOptions.cs).

 Split, Trim and IndexOf are the library's; they are functions here.
 */
module ResourceAttributes {
  import opened Prelude

  /** The characters that string.Trim removes. */
  predicate IsWhite(c: char) {
    '\U{0009}' <= c <= '\U{000D}' || c == ' ' || c == '\U{0085}' || c == '\U{00A0}' || c == '\U{1680}'
    || '\U{2000}' <= c <= '\U{200A}' || c == '\U{2028}' || c == '\U{2029}' || c == '\U{202F}'
    || c == '\U{205F}' || c == '\U{3000}'
  }

  function TrimStart(s: string): (r: string)
    ensures |r| <= |s|
  {
    if s != [] && IsWhite(s[0]) then TrimStart(s[1..]) else s
  }

  function TrimEnd(s: string): (r: string)
    ensures |r| <= |s|
  {
    if s != [] && IsWhite(s[|s| - 1]) then TrimEnd(s[..|s| - 1]) else s
  }

  function Trim(s: string): string {
    TrimEnd(TrimStart(s))
  }

  function SplitAtCommas(s: string): (parts: seq<string>)
    ensures parts != []
  {
    if s == [] then [[]]
    else
      var rest := SplitAtCommas(s[1..]);
      if s[0] == ',' then [[]] + rest else [[s[0]] + rest[0]] + rest[1..]
  }

  /** The position of the first '='. */
  function Equals(s: string): (o: Option<nat>)
    ensures o.Some? ==> o.value < |s|
  {
    if s == [] then None
    else if s[0] == '=' then Some(0)
    else
      var o := Equals(s[1..]);
      if o.Some? then Some(o.value + 1) else None
  }

  /** The value in one segment, if the segment has exactly this key. */
  function ValueIn(segment: string, key: string): Option<string> {
    var pair := Trim(segment);
    var eq := Equals(pair);
    if eq.Some? && pair[..eq.value] == key then Some(pair[eq.value + 1..]) else None
  }

  function FirstIn(segments: seq<string>, key: string): Option<string> {
    if segments == [] then None else ValueIn(segments[0], key).OrElse(FirstIn(segments[1..], key))
  }

  function Lookup(input: string, key: string): Option<string> {
    FirstIn(SplitAtCommas(input), key)
  }

  method LookupResourceAttribute(input: string, key: string) returns (value: Option<string>)
    ensures value == Lookup(input, key)
  {
    var segments := SplitAtCommas(input);
    for i := 0 to |segments|
      invariant FirstIn(segments, key) == FirstIn(segments[i..], key)
    {
      var pair := Trim(segments[i]);
      assert segments[i..][1..] == segments[i + 1..];
      if |pair| == 0 {
        continue;
      }
      var eqIndex := Equals(pair);
      if eqIndex.None? {
        continue;
      }
      if pair[..eqIndex.value] == key {
        return Some(pair[eqIndex.value + 1..]);
      }
    }
    return None;
  }

  // ---------------------------------------------------------------- printed lists

  /** A key=value pair with whitespace around it, or text that holds no pair. */
  datatype Segment =
    | Pair(left: string, key: string, value: string, right: string)
    | Noise(text: string)

  /** The characters with Unicode's White_Space property, one by one. */
  predicate IsPadding(c: char) {
    c == '\U{0009}' || c == '\U{000A}' || c == '\U{000B}' || c == '\U{000C}' || c == '\U{000D}'
    || c == '\U{0020}' || c == '\U{0085}' || c == '\U{00A0}' || c == '\U{1680}' || c == '\U{2000}'
    || c == '\U{2001}' || c == '\U{2002}' || c == '\U{2003}' || c == '\U{2004}' || c == '\U{2005}'
    || c == '\U{2006}' || c == '\U{2007}' || c == '\U{2008}' || c == '\U{2009}' || c == '\U{200A}'
    || c == '\U{2028}' || c == '\U{2029}' || c == '\U{202F}' || c == '\U{205F}' || c == '\U{3000}'
  }

  lemma TrimRemovesPadding(c: char)
    ensures IsWhite(c) <==> IsPadding(c)
  {
  }

  predicate AllWhite(s: string) {
    forall c <- s :: IsPadding(c)
  }

  /** Keys and values do not touch their padding; a value may contain '='. */
  predicate IsSegment(s: Segment) {
    match s
    case Pair(left, key, value, right) =>
      && AllWhite(left) && AllWhite(right)
      && ',' !in key && '=' !in key && (key != [] ==> !IsWhite(key[0]))
      && ',' !in value && (value != [] ==> !IsWhite(value[|value| - 1]))
    case Noise(text) => ',' !in text && '=' !in text
  }

  function PrintSegment(s: Segment): string {
    match s
    case Pair(left, key, value, right) => left + (Core(key, value) + right)
    case Noise(text) => text
  }

  function PrintList(list: seq<Segment>): string
    requires list != []
  {
    if |list| == 1 then PrintSegment(list[0]) else PrintSegment(list[0]) + [','] + PrintList(list[1..])
  }

  /** The value of the first pair with exactly this key. */
  function FirstValue(list: seq<Segment>, key: string): Option<string> {
    if list == [] then None
    else if list[0].Pair? && list[0].key == key then Some(list[0].value)
    else FirstValue(list[1..], key)
  }

  lemma {:induction false} SplitOff(s: string, rest: string)
    requires ',' !in s
    ensures SplitAtCommas(s + [','] + rest) == [s] + SplitAtCommas(rest)
    ensures SplitAtCommas(s) == [s]
  {
    if s == [] {
      assert s + [','] + rest == [','] + rest && ([','] + rest)[1..] == rest;
    } else {
      assert (s + [','] + rest)[1..] == s[1..] + [','] + rest;
      assert s == [s[0]] + s[1..];
      SplitOff(s[1..], rest);
    }
  }

  lemma SegmentHasNoComma(s: Segment)
    requires IsSegment(s)
    ensures ',' !in PrintSegment(s)
  {
  }

  function PrintAll(list: seq<Segment>): seq<string> {
    if list == [] then [] else [PrintSegment(list[0])] + PrintAll(list[1..])
  }

  /** Splitting undoes printing. */
  lemma {:induction false} SplitOfPrint(list: seq<Segment>)
    requires list != [] && forall s <- list :: IsSegment(s)
    ensures SplitAtCommas(PrintList(list)) == PrintAll(list)
  {
    SegmentHasNoComma(list[0]);
    if |list| == 1 {
      SplitOff(PrintSegment(list[0]), []);
      assert PrintAll(list[1..]) == [];
    } else {
      SplitOff(PrintSegment(list[0]), PrintList(list[1..]));
      SplitOfPrint(list[1..]);
    }
  }

  lemma {:induction false} TrimStartOf(left: string, core: string)
    requires AllWhite(left) && core != [] && !IsWhite(core[0])
    ensures TrimStart(left + core) == core
  {
    if left == [] {
      assert left + core == core;
    } else {
      assert (left + core)[1..] == left[1..] + core;
      assert left == [left[0]] + left[1..] && left[0] in left;
      TrimStartOf(left[1..], core);
    }
  }

  lemma {:induction false} TrimEndOf(core: string, right: string)
    requires AllWhite(right) && core != [] && !IsWhite(core[|core| - 1])
    ensures TrimEnd(core + right) == core
    decreases |right|
  {
    if right == [] {
      assert core + right == core;
    } else {
      var n := |right| - 1;
      assert (core + right)[..|core| + n] == core + right[..n] && right[n] in right;
      TrimEndOf(core, right[..n]);
    }
  }

  lemma {:induction false} EqualsAfter(key: string, value: string)
    requires '=' !in key
    ensures Equals(key + ['='] + value) == Some(|key|)
  {
    if key != [] {
      assert (key + ['='] + value)[1..] == key[1..] + ['='] + value;
      assert key == [key[0]] + key[1..];
      EqualsAfter(key[1..], value);
    }
  }

  function Core(key: string, value: string): string {
    key + ['='] + value
  }

  lemma CoreIsTrimmed(key: string, value: string)
    requires IsSegment(Pair([], key, value, []))
    ensures var core := Core(key, value); core != [] && !IsWhite(core[0]) && !IsWhite(core[|core| - 1])
  {
    assert key != [] ==> Core(key, value)[0] == key[0];
    assert value != [] ==> Core(key, value)[|Core(key, value)| - 1] == value[|value| - 1];
  }

  lemma TrimOfPair(left: string, core: string, right: string)
    requires AllWhite(left) && AllWhite(right)
    requires core != [] && !IsWhite(core[0]) && !IsWhite(core[|core| - 1])
    ensures Trim(left + (core + right)) == core
  {
    assert (core + right)[0] == core[0];
    TrimStartOf(left, core + right);
    TrimEndOf(core, right);
  }

  lemma PairIsRead(s: Segment, key: string)
    requires s.Pair? && IsSegment(s)
    ensures ValueIn(PrintSegment(s), key) == if s.key == key then Some(s.value) else None
  {
    var core := Core(s.key, s.value);
    assert Trim(PrintSegment(s)) == core by {
      CoreIsTrimmed(s.key, s.value);
      TrimOfPair(s.left, core, s.right);
    }
    EqualsAfter(s.key, s.value);
    assert core[..|s.key|] == s.key && core[|s.key| + 1..] == s.value;
  }

  lemma {:induction false} NoEquals(s: string)
    requires '=' !in s
    ensures Equals(s) == None
  {
    if s != [] {
      NoEquals(s[1..]);
    }
  }

  lemma {:induction false} TrimKeepsAbsence(s: string, c: char)
    requires c !in s
    ensures c !in TrimStart(s) && c !in TrimEnd(s)
    decreases |s|
  {
    if s != [] {
      TrimKeepsAbsence(s[1..], c);
      TrimKeepsAbsence(s[..|s| - 1], c);
    }
  }

  lemma NoiseIsSkipped(s: Segment, key: string)
    requires s.Noise? && IsSegment(s)
    ensures ValueIn(PrintSegment(s), key) == None
  {
    TrimKeepsAbsence(s.text, '=');
    TrimKeepsAbsence(TrimStart(s.text), '=');
    NoEquals(Trim(s.text));
  }

  lemma {:induction false} FirstOfPrinted(list: seq<Segment>, key: string)
    requires forall s <- list :: IsSegment(s)
    ensures FirstIn(PrintAll(list), key) == FirstValue(list, key)
  {
    if list != [] {
      if list[0].Pair? {
        PairIsRead(list[0], key);
      } else {
        NoiseIsSkipped(list[0], key);
      }
      FirstOfPrinted(list[1..], key);
      assert PrintAll(list)[1..] == PrintAll(list[1..]);
    }
  }

  /** For every printed list and every key, lookup returns the value of the first pair under exactly
      that key, '=' included, and nothing when there is no such pair. */
  lemma LookupOfPrint(list: seq<Segment>, key: string)
    requires list != [] && forall s <- list :: IsSegment(s)
    ensures Lookup(PrintList(list), key) == FirstValue(list, key)
  {
    SplitOfPrint(list);
    FirstOfPrinted(list, key);
  }

  // ---------------------------------------------------------------- every input is a printed list

  lemma {:induction false} TrimStartSplits(s: string) returns (left: string)
    ensures s == left + TrimStart(s) && AllWhite(left)
    ensures TrimStart(s) != [] ==> !IsWhite(TrimStart(s)[0])
  {
    left := [];
    if s != [] && IsWhite(s[0]) {
      left := TrimStartSplits(s[1..]);
      left := [s[0]] + left;
    }
  }

  lemma {:induction false} TrimEndSplits(s: string) returns (right: string)
    ensures s == TrimEnd(s) + right && AllWhite(right)
    ensures TrimEnd(s) != [] ==> !IsWhite(TrimEnd(s)[|TrimEnd(s)| - 1])
    decreases |s|
  {
    right := [];
    if s != [] && IsWhite(s[|s| - 1]) {
      right := TrimEndSplits(s[..|s| - 1]);
      right := right + [s[|s| - 1]];
      assert s == s[..|s| - 1] + [s[|s| - 1]];
    }
  }

  lemma {:induction false} FirstOf(s: string, c: char) returns (k: nat)
    requires c in s
    ensures k < |s| && s[k] == c && c !in s[..k]
  {
    k := 0;
    if s[0] != c {
      assert s == [s[0]] + s[1..];
      var n := FirstOf(s[1..], c);
      k := n + 1;
      assert s[..k] == [s[0]] + s[1..][..n];
    }
  }

  lemma TrimmedSegment(left: string, core: string, right: string) returns (g: Segment)
    requires AllWhite(left) && AllWhite(right) && ',' !in core && '=' in core
    requires !IsWhite(core[0]) && !IsWhite(core[|core| - 1])
    ensures IsSegment(g) && PrintSegment(g) == left + (core + right)
  {
    var k := FirstOf(core, '=');
    g := Pair(left, core[..k], core[k + 1..], right);
    assert core == Core(core[..k], core[k + 1..]);
  }

  lemma SegmentOf(s: string) returns (g: Segment)
    requires ',' !in s
    ensures IsSegment(g) && PrintSegment(g) == s
  {
    if '=' !in s {
      return Noise(s);
    }
    var left := TrimStartSplits(s);
    var start := TrimStart(s);
    var right := TrimEndSplits(start);
    var core := TrimEnd(start);
    assert '=' !in left && '=' !in right;
    assert '=' in core && core[0] == start[0];
    g := TrimmedSegment(left, core, right);
  }

  /** So LookupOfPrint describes the lookup on every input. */
  lemma {:induction false} EveryInputIsPrinted(input: string) returns (list: seq<Segment>)
    ensures list != [] && (forall s <- list :: IsSegment(s)) && PrintList(list) == input
    decreases |input|
  {
    if ',' in input {
      var k := FirstOf(input, ',');
      var g := SegmentOf(input[..k]);
      var more := EveryInputIsPrinted(input[k + 1..]);
      list := [g] + more;
      assert list[1..] == more && input == input[..k] + [','] + input[k + 1..];
    } else {
      var g := SegmentOf(input);
      list := [g];
    }
  }
}
