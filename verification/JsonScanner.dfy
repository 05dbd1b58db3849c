/**
 CentralConfigJsonParser: the byte scanner for the log_level property
 (src/Elastic.OpenTelemetry.OpAmp/OpAmp/CentralConfigJsonParser.cs).

 The parser's methods keep the loops of the source and are proved against the functions below; what
 those functions mean on arbitrary bytes is ScanMeaning.  Values are raw bytes: UTF-8 decoding and
 escape decoding are not part of this model.
 */
module JsonScanner {
  import opened Prelude

  newtype byte = x: int | 0 <= x < 0x100

  type Bytes = seq<byte>

  const QUOTE: byte := 0x22
  const BACKSLASH: byte := 0x5C
  const COLON: byte := 0x3A

  /** log_level */
  const LOG_LEVEL: Bytes := [0x6C, 0x6F, 0x67, 0x5F, 0x6C, 0x65, 0x76, 0x65, 0x6C]

  /** The quoted property name that is searched for. */
  function Quoted(name: Bytes): Bytes {
    [QUOTE] + name + [QUOTE]
  }

  predicate IsWhitespace(b: byte) {
    b == 0x20 || b == 0x09 || b == 0x0D || b == 0x0A
  }

  function LeadingFrom(s: Bytes, i: nat): (n: nat)
    requires i <= |s|
    ensures i <= n <= |s|
    decreases |s| - i
  {
    if i < |s| && IsWhitespace(s[i]) then LeadingFrom(s, i + 1) else i
  }

  /** The number of leading whitespace bytes. */
  function Leading(s: Bytes): (n: nat)
    ensures n <= |s|
  {
    LeadingFrom(s, 0)
  }

  predicate OccursAt(s: Bytes, p: Bytes, i: nat) {
    i + |p| <= |s| && forall k | 0 <= k < |p| :: s[i + k] == p[k]
  }

  /** The first position from i on at which p occurs in s. */
  function FirstFrom(s: Bytes, p: Bytes, i: nat): (o: Option<nat>)
    ensures o.Some? ==> i <= o.value <= o.value + |p| <= |s|
    decreases |s| - i
  {
    if i + |p| > |s| then None
    else if OccursAt(s, p, i) then Some(i)
    else FirstFrom(s, p, i + 1)
  }

  function IndexOf(s: Bytes, p: Bytes): (o: Option<nat>)
    ensures o.Some? ==> o.value + |p| <= |s|
  {
    FirstFrom(s, p, 0)
  }

  /** The position of the first quote from i on that no backslash escapes, if the text gets there. */
  function ClosingFrom(s: Bytes, i: nat): (o: Option<nat>)
    requires i <= |s|
    ensures o.Some? ==> i <= o.value < |s|
    decreases |s| - i
  {
    if i == |s| then None
    else if s[i] == BACKSLASH then if i + 1 >= |s| then None else ClosingFrom(s, i + 2)
    else if s[i] == QUOTE then Some(i)
    else ClosingFrom(s, i + 1)
  }

  function Closing(s: Bytes): (o: Option<nat>)
    ensures o.Some? ==> o.value < |s|
  {
    ClosingFrom(s, 0)
  }

  /** Optional whitespace and a colon. */
  predicate StartsWithColon(s: Bytes) {
    Leading(s) < |s| && s[Leading(s)] == COLON
  }

  /** The string after optional whitespace, if there is one. */
  function StringAhead(s: Bytes): Option<Bytes> {
    var n := Leading(s);
    if n >= |s| || s[n] != QUOTE then None
    else
      var text := s[n + 1..];
      var end := Closing(text);
      if end.None? then None else Some(text[..end.value])
  }

  /** The text after whitespace and a colon. */
  function AfterColon(s: Bytes): Bytes
    requires StartsWithColon(s)
  {
    s[Leading(s) + 1..]
  }

  /** What the scan for the quoted name finds. */
  function Scan(s: Bytes, pattern: Bytes): Option<Bytes>
    requires pattern != []
    decreases |s|, 0
  {
    var index := IndexOf(s, pattern);
    if index.None? then None else Resume(s[index.value + |pattern|..], pattern)
  }

  /** What it finds after a match. */
  function Resume(rest: Bytes, pattern: Bytes): Option<Bytes>
    requires pattern != []
    decreases |rest|, 1
  {
    if StartsWithColon(rest) then StringAhead(AfterColon(rest))
    else if Leading(rest) >= |rest| then None
    else Scan(rest, pattern)
  }

  class CentralConfigJsonParser {
    const json: Bytes

    constructor (json: Bytes)
      ensures this.json == json
    {
      this.json := json;
    }

    method TryParseLogLevel() returns (logLevel: Option<Bytes>)
      ensures logLevel == Scan(json, Quoted(LOG_LEVEL))
    {
      logLevel := TryParseStringValue(Quoted(LOG_LEVEL));
    }

    method TryParseStringValue(propertyName: Bytes) returns (value: Option<Bytes>)
      requires propertyName != []
      ensures value == Scan(json, propertyName)
    {
      var remaining := json;
      while true
        invariant Scan(json, propertyName) == Scan(remaining, propertyName)
        decreases |remaining|
      {
        var index := IndexOf(remaining, propertyName);
        if index.None? {
          return None;
        }
        var pos := index.value + |propertyName|;
        remaining := remaining[pos..];
        pos := SkipWhitespace(remaining);
        if pos >= |remaining| {
          return None;
        }
        if remaining[pos] != COLON {
          continue;
        }
        pos := pos + 1;
        remaining := remaining[pos..];
        pos := SkipWhitespace(remaining);
        if pos >= |remaining| {
          return None;
        }
        if remaining[pos] != QUOTE {
          return None;
        }
        pos := pos + 1;
        remaining := remaining[pos..];
        var end := ClosingQuote(remaining);
        if end.None? {
          return None;
        }
        return Some(remaining[..end.value]);
      }
    }

    /** The inner loop of TryParseStringValue. */
    static method ClosingQuote(remaining: Bytes) returns (end: Option<nat>)
      ensures end == Closing(remaining)
    {
      var i := 0;
      while i < |remaining|
        invariant 0 <= i <= |remaining|
        invariant Closing(remaining) == ClosingFrom(remaining, i)
      {
        if remaining[i] == BACKSLASH {
          if i + 1 >= |remaining| {
            return None;
          }
          i := i + 2;
          continue;
        }
        if remaining[i] == QUOTE {
          return Some(i);
        }
        i := i + 1;
      }
      return None;
    }

    static method SkipWhitespace(span: Bytes) returns (i: nat)
      ensures i == Leading(span) <= |span|
      ensures forall k | 0 <= k < i :: span[k] == 0x20 || span[k] == 0x09 || span[k] == 0x0A || span[k] == 0x0D
      ensures i < |span| ==> span[i] != 0x20 && span[i] != 0x09 && span[i] != 0x0A && span[i] != 0x0D
    {
      i := 0;
      while i < |span|
        invariant 0 <= i <= |span|
        invariant Leading(span) == LeadingFrom(span, i)
        invariant forall k | 0 <= k < i :: IsWhitespace(span[k])
      {
        if !IsWhitespace(span[i]) {
          break;
        }
        i := i + 1;
      }
    }
  }

  // ---------------------------------------------------------------- what the scan means

  /** Insignificant whitespace (section 2 of RFC 8259): space, tab, line feed, carriage return. */
  predicate IsJsonSpace(b: byte) {
    b == 0x20 || b == 0x09 || b == 0x0A || b == 0x0D
  }

  predicate AllWhitespace(s: Bytes) {
    forall b <- s :: IsJsonSpace(b)
  }

  predicate WhitespaceUpTo(s: Bytes, n: nat) {
    n <= |s| && (forall k | 0 <= k < n :: IsJsonSpace(s[k])) && (n < |s| ==> !IsJsonSpace(s[n]))
  }

  lemma {:induction false} LeadingFromMeaning(s: Bytes, i: nat, n: nat)
    requires i <= |s| && i <= n && forall k | 0 <= k < i :: IsJsonSpace(s[k])
    ensures LeadingFrom(s, i) == n <==> WhitespaceUpTo(s, n)
    decreases |s| - i
  {
    if i < |s| && IsJsonSpace(s[i]) && i < n {
      LeadingFromMeaning(s, i + 1, n);
    }
  }

  lemma LeadingMeaning(s: Bytes, n: nat)
    ensures Leading(s) == n <==> WhitespaceUpTo(s, n)
  {
    LeadingFromMeaning(s, 0, n);
  }

  predicate NoneBefore(s: Bytes, p: Bytes, n: nat) {
    forall i: nat | i < n :: !OccursAt(s, p, i)
  }

  lemma {:induction false} FirstFromMeaning(s: Bytes, p: Bytes, i: nat, k: nat)
    requires NoneBefore(s, p, i) && i <= k
    ensures FirstFrom(s, p, i) == Some(k) <==> OccursAt(s, p, k) && NoneBefore(s, p, k)
    decreases |s| - i
  {
    if i + |p| <= |s| && !OccursAt(s, p, i) && i < k {
      FirstFromMeaning(s, p, i + 1, k);
    }
  }

  lemma IndexOfMeaning(s: Bytes, p: Bytes, k: nat)
    ensures IndexOf(s, p) == Some(k) <==> OccursAt(s, p, k) && NoneBefore(s, p, k)
  {
    FirstFromMeaning(s, p, 0, k);
  }

  /** The characters of a JSON string (section 7 of RFC 8259), as far as quotes and escapes go. */
  predicate IsStringBody(v: Bytes) {
    IsBodyFrom(v, 0)
  }

  predicate IsBodyFrom(v: Bytes, i: nat)
    requires i <= |v|
    decreases |v| - i
  {
    i == |v|
    || (v[i] == 0x5C && i + 2 <= |v| && IsBodyFrom(v, i + 2))
    || (v[i] != 0x5C && v[i] != 0x22 && IsBodyFrom(v, i + 1))
  }

  lemma {:induction false} ClosingOfBody(v: Bytes, s: Bytes, i: nat)
    requires i <= |v| < |s| && v <= s && s[|v|] == QUOTE && IsBodyFrom(v, i)
    ensures ClosingFrom(s, i) == Some(|v|)
    decreases |v| - i
  {
    if i < |v| {
      ClosingOfBody(v, s, if v[i] == BACKSLASH then i + 2 else i + 1);
    }
  }

  lemma {:induction false} BodyOfClosing(s: Bytes, i: nat)
    requires i <= |s| && ClosingFrom(s, i).Some?
    ensures var e := ClosingFrom(s, i).value; IsBodyFrom(s[..e], i) && s[e] == QUOTE
    decreases |s| - i
  {
    if s[i] != QUOTE {
      BodyOfClosing(s, if s[i] == BACKSLASH then i + 2 else i + 1);
    }
  }

  lemma LeadingOf(w: Bytes, rest: Bytes)
    requires AllWhitespace(w) && (rest == [] || !IsJsonSpace(rest[0]))
    ensures Leading(w + rest) == |w|
  {
    assert forall k | 0 <= k < |w| :: (w + rest)[k] == w[k] && w[k] in w;
    LeadingMeaning(w + rest, |w|);
  }

  /** t is whitespace, a string with body v, and anything. */
  ghost predicate StringText(t: Bytes, v: Bytes) {
    exists w, tail: Bytes :: IsStringTextOf(t, w, v, tail)
  }

  ghost predicate IsStringTextOf(t: Bytes, w: Bytes, v: Bytes, tail: Bytes) {
    AllWhitespace(w) && IsStringBody(v) && t == w + ([QUOTE] + (v + [QUOTE] + tail))
  }

  lemma CutAround(s: Bytes, k: nat)
    requires k < |s|
    ensures s == s[..k] + ([s[k]] + s[k + 1..])
    ensures s == s[..k] + [s[k]] + s[k + 1..]
  {
  }

  lemma StringAheadIsText(t: Bytes, v: Bytes)
    requires StringAhead(t) == Some(v)
    ensures StringText(t, v)
  {
    var n := Leading(t);
    var text := t[n + 1..];
    var e := Closing(text).value;
    var tail := text[e + 1..];
    assert AllWhitespace(t[..n]) by {
      LeadingMeaning(t, n);
    }
    assert IsStringBody(v) && text[e] == QUOTE by {
      BodyOfClosing(text, 0);
    }
    assert text == v + [QUOTE] + tail by {
      CutAround(text, e);
    }
    assert t == t[..n] + ([QUOTE] + text) by {
      CutAround(t, n);
    }
    assert IsStringTextOf(t, t[..n], v, tail);
  }

  lemma TextIsStringAhead(t: Bytes, w: Bytes, v: Bytes, tail: Bytes)
    requires IsStringTextOf(t, w, v, tail)
    ensures StringAhead(t) == Some(v)
  {
    var text := v + [QUOTE] + tail;
    LeadingOf(w, [QUOTE] + text);
    assert t[|w| + 1..] == text;
    ClosingOfBody(v, text, 0);
    assert text[..|v|] == v;
  }

  lemma StringAheadMeaning(t: Bytes, v: Bytes)
    ensures StringAhead(t) == Some(v) <==> StringText(t, v)
  {
    if StringAhead(t) == Some(v) {
      StringAheadIsText(t, v);
    } else if StringText(t, v) {
      var w, tail: Bytes :| IsStringTextOf(t, w, v, tail);
      TextIsStringAhead(t, w, v, tail);
    }
  }

  /** The text up to the first match is chunk. */
  predicate CutsOff(s: Bytes, pattern: Bytes, chunk: Bytes) {
    chunk <= s && OccursAt(s, pattern, |chunk|) && NoneBefore(s, pattern, |chunk|)
  }

  function AfterCut(s: Bytes, pattern: Bytes, chunk: Bytes): Bytes
    requires CutsOff(s, pattern, chunk)
  {
    s[|chunk| + |pattern|..]
  }

  /** s is cut at the matches that a greedy scan, without overlaps, finds: the chunks before each match,
      and the text after the last one.  Every match but the last is not followed by a colon. */
  ghost predicate CutAtMatches(s: Bytes, pattern: Bytes, chunks: seq<Bytes>, last: Bytes)
    decreases |chunks|
  {
    chunks != [] && CutsOff(s, pattern, chunks[0])
    && var rest := AfterCut(s, pattern, chunks[0]);
       if |chunks| == 1 then rest == last
       else !StartsWithColon(rest) && CutAtMatches(rest, pattern, chunks[1..], last)
  }

  lemma CutAtIndex(s: Bytes, pattern: Bytes) returns (chunk: Bytes)
    requires pattern != [] && IndexOf(s, pattern).Some?
    ensures CutsOff(s, pattern, chunk) && |AfterCut(s, pattern, chunk)| < |s|
  {
    var i := IndexOf(s, pattern).value;
    chunk := s[..i];
    IndexOfMeaning(s, pattern, i);
  }

  lemma LeadingStopsBefore(s: Bytes, k: nat)
    requires k < |s| && !IsJsonSpace(s[k])
    ensures Leading(s) <= k
  {
    LeadingMeaning(s, Leading(s));
  }

  lemma CutCons(s: Bytes, pattern: Bytes, chunk: Bytes, more: seq<Bytes>, last: Bytes)
    requires CutsOff(s, pattern, chunk)
    requires var rest := AfterCut(s, pattern, chunk);
      !StartsWithColon(rest) && CutAtMatches(rest, pattern, more, last)
    ensures CutAtMatches(s, pattern, [chunk] + more, last)
  {
    assert ([chunk] + more)[1..] == more;
  }

  lemma CutOne(s: Bytes, pattern: Bytes, chunk: Bytes)
    requires CutsOff(s, pattern, chunk)
    ensures CutAtMatches(s, pattern, [chunk], AfterCut(s, pattern, chunk))
  {
  }

  ghost predicate FindsIn(s: Bytes, pattern: Bytes, chunks: seq<Bytes>, last: Bytes, v: Bytes) {
    CutAtMatches(s, pattern, chunks, last) && StartsWithColon(last) && StringText(AfterColon(last), v)
  }

  lemma CutResumes(s: Bytes, pattern: Bytes, chunk: Bytes)
    requires pattern != [] && CutsOff(s, pattern, chunk)
    ensures Scan(s, pattern) == Resume(AfterCut(s, pattern, chunk), pattern)
  {
    IndexOfMeaning(s, pattern, |chunk|);
  }

  lemma {:induction false} ScanCuts(s: Bytes, pattern: Bytes) returns (chunks: seq<Bytes>, last: Bytes)
    requires pattern != [] && Scan(s, pattern).Some?
    ensures CutAtMatches(s, pattern, chunks, last)
    ensures StartsWithColon(last) && StringAhead(AfterColon(last)) == Scan(s, pattern)
    decreases |s|
  {
    var chunk := CutAtIndex(s, pattern);
    CutResumes(s, pattern, chunk);
    var rest := AfterCut(s, pattern, chunk);
    if StartsWithColon(rest) {
      CutOne(s, pattern, chunk);
      chunks, last := [chunk], rest;
    } else {
      var more;
      more, last := ScanCuts(rest, pattern);
      CutCons(s, pattern, chunk, more, last);
      chunks := [chunk] + more;
    }
  }

  lemma CutIsNotBlank(s: Bytes, pattern: Bytes, chunk: Bytes)
    requires pattern != [] && !IsJsonSpace(pattern[0]) && CutsOff(s, pattern, chunk)
    ensures Leading(s) < |s|
  {
    assert s[|chunk| + 0] == pattern[0];
    LeadingStopsBefore(s, |chunk|);
  }

  lemma {:induction false} CutIsScanned(s: Bytes, pattern: Bytes, chunks: seq<Bytes>, last: Bytes)
    requires pattern != [] && !IsJsonSpace(pattern[0])
    requires CutAtMatches(s, pattern, chunks, last) && StartsWithColon(last)
    ensures Scan(s, pattern) == StringAhead(AfterColon(last))
    decreases |chunks|
  {
    CutResumes(s, pattern, chunks[0]);
    if |chunks| > 1 {
      var rest := AfterCut(s, pattern, chunks[0]);
      CutIsScanned(rest, pattern, chunks[1..], last);
      CutIsNotBlank(rest, pattern, chunks[1..][0]);
    }
  }

  /** On arbitrary bytes: the scan returns v exactly when the text can be cut at a greedy sequence of
      matches of the quoted name of which the last is the first one followed by whitespace and a colon,
      and what comes after that colon is whitespace and the string v, up to its first unescaped quote. */
  lemma ScanMeaning(s: Bytes, name: Bytes, v: Bytes)
    ensures Scan(s, Quoted(name)) == Some(v) <==>
      exists chunks, last: Bytes :: FindsIn(s, Quoted(name), chunks, last, v)
  {
    if Scan(s, Quoted(name)) == Some(v) {
      var chunks, last := ScanCuts(s, Quoted(name));
      StringAheadMeaning(AfterColon(last), v);
      assert FindsIn(s, Quoted(name), chunks, last, v);
    }
    if exists chunks, last: Bytes :: FindsIn(s, Quoted(name), chunks, last, v) {
      var chunks, last: Bytes :| FindsIn(s, Quoted(name), chunks, last, v);
      CutIsScanned(s, Quoted(name), chunks, last);
      StringAheadMeaning(AfterColon(last), v);
    }
  }
}
