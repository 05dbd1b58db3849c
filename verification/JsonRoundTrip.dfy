/**
 The scanner against a JSON reading: flat objects (sections 2, 4 and 7 of RFC 8259) are printed with any
 whitespace between tokens and scanned back.

 Strings may contain escapes.  A reading decodes the escapes of a key before comparing it with a name,
 as section 7 asks; values are the raw bytes between their quotes, as the parser returns them.  The
 objects here include all of RFC 8259's flat ones: malformed escapes and control characters are not
 excluded from strings, and a value that is not a string is any text without quotes, which covers
 numbers, true, false and null.
 */
module JsonRoundTrip {
  import opened Prelude
  import opened JsonScanner

  const COMMA: byte := 0x2C
  const OPEN: byte := 0x7B
  const CLOSE: byte := 0x7D

  datatype Value = Text(body: Bytes) | Bare(token: Bytes)

  /** A member and the whitespace before its key, before and after its colon, and after its value. */
  datatype Member = Member(key: Bytes, value: Value, w1: Bytes, w2: Bytes, w3: Bytes, w4: Bytes)

  predicate QuoteFree(s: Bytes) {
    forall b <- s :: b != QUOTE
  }

  predicate IsMember(m: Member) {
    && IsStringBody(m.key)
    && (match m.value case Text(body) => IsStringBody(body) case Bare(token) => QuoteFree(token))
    && AllWhitespace(m.w1) && AllWhitespace(m.w2) && AllWhitespace(m.w3) && AllWhitespace(m.w4)
  }

  function PrintValue(v: Value, rest: Bytes): Bytes {
    match v
    case Text(body) => [QUOTE] + (body + [QUOTE] + rest)
    case Bare(token) => token + rest
  }

  /** What follows a member's value: whitespace, then a comma and more members, or the closing brace. */
  function PrintAfter(w4: Bytes, more: seq<Member>, trail: Bytes): Bytes
    decreases |more|, 1
  {
    w4 + (if more == [] then [CLOSE] + trail else [COMMA] + PrintMembers(more, trail))
  }

  function PrintMembers(ms: seq<Member>, trail: Bytes): Bytes
    decreases |ms|, 0
  {
    if ms == [] then [CLOSE] + trail
    else
      var m := ms[0];
      m.w1 + ([QUOTE] + (m.key + [QUOTE] + PrintAfterKey(m, PrintAfter(m.w4, ms[1..], trail))))
  }

  function PrintAfterKey(m: Member, after: Bytes): Bytes {
    m.w2 + ([COLON] + (m.w3 + PrintValue(m.value, after)))
  }

  /** What follows the opening brace. */
  function Inside(inner: Bytes, ms: seq<Member>, trail: Bytes): Bytes {
    if ms == [] then inner + ([CLOSE] + trail) else PrintMembers(ms, trail)
  }

  /** The bytes of an object; inner is the whitespace of an empty one. */
  function Print(lead: Bytes, inner: Bytes, ms: seq<Member>, trail: Bytes): Bytes {
    lead + ([OPEN] + Inside(inner, ms, trail))
  }

  // ---------------------------------------------------------------- what a key spells

  function HexDigit(b: byte): Option<nat> {
    if 0x30 <= b <= 0x39 then Some((b - 0x30) as nat)
    else if 0x41 <= b <= 0x46 then Some((b - 0x41) as nat + 10)
    else if 0x61 <= b <= 0x66 then Some((b - 0x61) as nat + 10)
    else None
  }

  /** The character of a two-byte escape. */
  function ShortEscape(b: byte): Option<nat> {
    if b == 0x22 || b == 0x5C || b == 0x2F then Some(b as nat)
    else if b == 0x62 then Some(0x08)
    else if b == 0x66 then Some(0x0C)
    else if b == 0x6E then Some(0x0A)
    else if b == 0x72 then Some(0x0D)
    else if b == 0x74 then Some(0x09)
    else None
  }

  datatype Escape = Escape(code: nat, length: nat)

  /** The escape that begins with the backslash at i, if it is well formed. */
  function EscapeAt(s: Bytes, i: nat): (e: Option<Escape>)
    requires i < |s|
    ensures e.Some? ==> 2 <= e.value.length && i + e.value.length <= |s|
  {
    if i + 1 == |s| then None
    else if s[i + 1] == 0x75 then
      if i + 6 > |s| then None
      else
        var a, b, c, d := HexDigit(s[i + 2]), HexDigit(s[i + 3]), HexDigit(s[i + 4]), HexDigit(s[i + 5]);
        if a.None? || b.None? || c.None? || d.None? then None
        else Some(Escape(((a.value * 16 + b.value) * 16 + c.value) * 16 + d.value, 6))
    else
      var short := ShortEscape(s[i + 1]);
      if short.None? then None else Some(Escape(short.value, 2))
  }

  /** The key from i on, with its escapes decoded, is the name from j on; the name is ASCII. */
  predicate SpellsFrom(key: Bytes, i: nat, name: Bytes, j: nat)
    requires i <= |key| && j <= |name|
    decreases |key| - i
  {
    if i == |key| then j == |name|
    else if j == |name| then false
    else if key[i] == 0x5C then
      var e := EscapeAt(key, i);
      e.Some? && e.value.code == name[j] as nat && SpellsFrom(key, i + e.value.length, name, j + 1)
    else key[i] == name[j] && SpellsFrom(key, i + 1, name, j + 1)
  }

  predicate Spells(key: Bytes, name: Bytes) {
    SpellsFrom(key, 0, name, 0)
  }

  /** The string from i on with its escapes decoded, byte or code unit by code unit; None if malformed. */
  function DecodedFrom(v: Bytes, i: nat): Option<seq<nat>>
    requires i <= |v|
    decreases |v| - i
  {
    if i == |v| then Some([])
    else if v[i] == 0x5C then
      var e := EscapeAt(v, i);
      if e.None? then None else Before(e.value.code, DecodedFrom(v, i + e.value.length))
    else Before(v[i] as nat, DecodedFrom(v, i + 1))
  }

  function Before(unit: nat, rest: Option<seq<nat>>): Option<seq<nat>> {
    if rest.Some? then Some([unit] + rest.value) else None
  }

  function UnitsFrom(s: Bytes, j: nat): (units: seq<nat>)
    requires j <= |s|
    ensures |units| == |s| - j
    decreases |s| - j
  {
    if j == |s| then [] else [s[j] as nat] + UnitsFrom(s, j + 1)
  }

  /** A key spells a name exactly if it decodes to it. */
  lemma {:induction false} SpellsMeaning(key: Bytes, i: nat, name: Bytes, j: nat)
    requires i <= |key| && j <= |name|
    ensures SpellsFrom(key, i, name, j) <==> DecodedFrom(key, i) == Some(UnitsFrom(name, j))
    decreases |key| - i
  {
    if i < |key| && j < |name| {
      if key[i] != 0x5C {
        SpellsMeaning(key, i + 1, name, j + 1);
        BeforeIsInjective(key[i] as nat, DecodedFrom(key, i + 1), name[j] as nat, UnitsFrom(name, j + 1));
      } else if EscapeAt(key, i).Some? {
        var e := EscapeAt(key, i).value;
        SpellsMeaning(key, i + e.length, name, j + 1);
        BeforeIsInjective(e.code, DecodedFrom(key, i + e.length), name[j] as nat, UnitsFrom(name, j + 1));
      }
    }
  }

  lemma BeforeIsInjective(a: nat, rest: Option<seq<nat>>, b: nat, units: seq<nat>)
    ensures Before(a, rest) == Some([b] + units) <==> a == b && rest == Some(units)
  {
    if rest.Some? {
      assert ([a] + rest.value)[0] == a && ([a] + rest.value)[1..] == rest.value;
      assert ([b] + units)[0] == b && ([b] + units)[1..] == units;
    }
  }

  lemma {:induction false} DecodingShortens(v: Bytes, i: nat, k: nat)
    requires i <= |v| && DecodedFrom(v, i).Some?
    ensures |DecodedFrom(v, i).value| <= |v| - i
    ensures i <= k < |v| && v[k] == 0x5C ==> |DecodedFrom(v, i).value| < |v| - i
    decreases |v| - i
  {
    if i < |v| {
      DecodingShortens(v, if v[i] == 0x5C then i + EscapeAt(v, i).value.length else i + 1, k);
    }
  }

  lemma {:induction false} VerbatimDecodes(v: Bytes, i: nat)
    requires i <= |v| && 0x5C !in v
    ensures DecodedFrom(v, i) == Some(UnitsFrom(v, i))
    decreases |v| - i
  {
    if i < |v| {
      assert v[i] in v;
      VerbatimDecodes(v, i + 1);
    }
  }

  /** The raw bytes that the parser returns are the decoded string if and only if it has no escapes. */
  lemma RawIsDecoded(v: Bytes)
    ensures DecodedFrom(v, 0) == Some(UnitsFrom(v, 0)) <==> 0x5C !in v
  {
    if 0x5C !in v {
      VerbatimDecodes(v, 0);
    } else if DecodedFrom(v, 0).Some? {
      var k: nat :| k < |v| && v[k] == 0x5C;
      DecodingShortens(v, 0, k);
    }
  }

  /** The JSON reading: the string value of the first member whose key spells the name; None if there is
      none or its value is no string. */
  function Reading(ms: seq<Member>, name: Bytes): Option<Bytes> {
    if ms == [] then None
    else if Spells(ms[0].key, name) then (if ms[0].value.Text? then Some(ms[0].value.body) else None)
    else Reading(ms[1..], name)
  }

  // ---------------------------------------------------------------- what the scanner makes of it

  /** How the scanner takes a key for the name: it is the name, or ends in an escaped quote and the name. */
  predicate TakenFor(key: Bytes, name: Bytes) {
    key == name || (|key| > |name| && key[|key| - |name| - 1..] == [QUOTE] + name)
  }

  function ScannedReading(ms: seq<Member>, name: Bytes): Option<Bytes> {
    if ms == [] then None
    else if TakenFor(ms[0].key, name) then (if ms[0].value.Text? then Some(ms[0].value.body) else None)
    else ScannedReading(ms[1..], name)
  }

  predicate PlainName(name: Bytes) {
    name != [] && forall b <- name ::
      b != QUOTE && b != 0x5C && b != COLON && b != COMMA && b != CLOSE && b < 0x80
  }

  // ---------------------------------------------------------------- skipping text without a match

  lemma OccursLater(s: Bytes, p: Bytes, n: nat, i: nat)
    requires n <= |s|
    ensures OccursAt(s[n..], p, i) <==> OccursAt(s, p, n + i)
  {
    if n + i + |p| <= |s| {
      forall k | 0 <= k < |p| ensures s[n..][i + k] == p[k] <==> s[n + i + k] == p[k] {
      }
    }
  }

  lemma NoneBeforeLater(s: Bytes, p: Bytes, n: nat, k: nat)
    requires n <= |s| && NoneBefore(s, p, n)
    ensures NoneBefore(s[n..], p, k) <==> NoneBefore(s, p, n + k)
  {
    forall i: nat ensures OccursAt(s[n..], p, i) <==> OccursAt(s, p, n + i) {
      OccursLater(s, p, n, i);
    }
    if NoneBefore(s[n..], p, k) {
      forall i: nat | i < n + k ensures !OccursAt(s, p, i) {
        assert i >= n ==> !OccursAt(s[n..], p, i - n);
      }
    }
  }

  lemma IndexOfLater(s: Bytes, p: Bytes, n: nat)
    requires n <= |s| && NoneBefore(s, p, n)
    ensures var later := IndexOf(s[n..], p);
      IndexOf(s, p) == if later.Some? then Some(n + later.value) else None
  {
    var here, later := IndexOf(s, p), IndexOf(s[n..], p);
    if later.Some? {
      OccursLater(s, p, n, later.value);
      NoneBeforeLater(s, p, n, later.value);
      IndexOfMeaning(s[n..], p, later.value);
      IndexOfMeaning(s, p, n + later.value);
    } else if here.Some? {
      IndexOfMeaning(s, p, here.value);
      var k: nat := here.value - n;
      OccursLater(s, p, n, k);
      NoneBeforeLater(s, p, n, k);
      IndexOfMeaning(s[n..], p, k);
    }
  }

  /** Text without a match does not affect the scan. */
  lemma SkipNoMatch(s: Bytes, p: Bytes, n: nat)
    requires p != [] && n <= |s| && NoneBefore(s, p, n)
    ensures Scan(s, p) == Scan(s[n..], p)
  {
    IndexOfLater(s, p, n);
    var i := IndexOf(s[n..], p);
    if i.Some? {
      assert s[n + i.value + |p|..] == s[n..][i.value + |p|..];
    }
  }

  lemma SkipPlain(pre: Bytes, rest: Bytes, name: Bytes)
    requires QuoteFree(pre)
    ensures Scan(pre + rest, Quoted(name)) == Scan(rest, Quoted(name))
  {
    var s := pre + rest;
    forall i: nat | i < |pre| ensures !OccursAt(s, Quoted(name), i) {
      assert s[i + 0] == pre[i] && pre[i] in pre && Quoted(name)[0] == QUOTE;
    }
    SkipNoMatch(s, Quoted(name), |pre|);
    assert s[|pre|..] == rest;
  }

  /** Before the next quote, if any, there is a colon, a comma or a closing brace. */
  ghost predicate Separated(s: Bytes) {
    exists k: nat :: SeparatorAt(s, k)
  }

  predicate SeparatorAt(s: Bytes, k: nat) {
    k < |s| && (s[k] == COLON || s[k] == COMMA || s[k] == CLOSE) && forall i | 0 <= i < k :: s[i] != QUOTE
  }

  lemma {:induction false} QuotesAreEscaped(c: Bytes, i: nat, k: nat)
    requires i <= k < |c| && c[k] == QUOTE && IsBodyFrom(c, i)
    ensures k > 0 && c[k - 1] == 0x5C
    decreases |c| - i
  {
    if c[i] != 0x5C {
      QuotesAreEscaped(c, i + 1, k);
    } else if k > i + 1 {
      QuotesAreEscaped(c, i + 2, k);
    }
  }

  /** The name in quotes, spelled out byte by byte at position i. */
  predicate MatchAt(s: Bytes, name: Bytes, i: nat) {
    && i + |name| + 2 <= |s|
    && s[i] == QUOTE
    && s[i + 1 + |name|] == QUOTE
    && forall k | 0 <= k < |name| :: s[i + 1 + k] == name[k]
  }

  lemma MatchAtMeaning(s: Bytes, name: Bytes, i: nat)
    ensures OccursAt(s, Quoted(name), i) <==> MatchAt(s, name, i)
  {
    var q := Quoted(name);
    assert |q| == |name| + 2 && q[0] == QUOTE && q[1 + |name|] == QUOTE;
    assert forall k | 0 <= k < |name| :: q[1 + k] == name[k];
    if OccursAt(s, q, i) {
      assert s[i + 0] == q[0] && s[i + (1 + |name|)] == q[1 + |name|];
      forall k | 0 <= k < |name| ensures s[i + 1 + k] == name[k] {
        assert s[i + (1 + k)] == q[1 + k];
      }
    }
    if MatchAt(s, name, i) {
      forall k | 0 <= k < |q| ensures s[i + k] == q[k] {
        assert 0 < k <= |name| ==> s[i + 1 + (k - 1)] == name[k - 1];
      }
    }
  }

  /** A printed string and what follows it. */
  function PrintString(c: Bytes, after: Bytes): Bytes {
    [QUOTE] + (c + [QUOTE] + after)
  }

  lemma PrintStringAt(c: Bytes, after: Bytes)
    ensures var s := PrintString(c, after);
      && s[0] == QUOTE && s[|c| + 1] == QUOTE
      && |s| == |c| + 2 + |after|
      && (forall k | 0 <= k < |c| :: s[k + 1] == c[k])
      && (forall k | 0 <= k < |after| :: s[|c| + 2 + k] == after[k])
  {
  }

  lemma PrintStringRest(c: Bytes, after: Bytes)
    ensures |c| + 2 <= |PrintString(c, after)| && PrintString(c, after)[|c| + 2..] == after
  {
  }

  /** Inside a printed string and its closing quote the name is matched only where the body ends with it. */
  lemma MatchInString(c: Bytes, after: Bytes, name: Bytes, i: nat)
    requires IsStringBody(c) && PlainName(name) && i <= |c|
    requires MatchAt(PrintString(c, after), name, i)
    ensures TakenFor(c, name) && i == |c| - |name|
  {
    var s := PrintString(c, after);
    var j := i + 1 + |name|;
    PrintStringAt(c, after);
    forall p | i < p < j ensures s[p] != QUOTE && s[p] != 0x5C {
      assert s[i + 1 + (p - i - 1)] == name[p - i - 1] && name[p - i - 1] in name;
    }
    if j <= |c| {
      assert s[(j - 1) + 1] == c[j - 1] && s[(j - 2) + 1] == c[j - 2];
      QuotesAreEscaped(c, 0, j - 1);
    } else if j == |c| + 1 {
      assert forall k | 0 <= k < |name| :: c[i + k] == s[(i + k) + 1] == s[i + 1 + k] == name[k];
      if i == 0 {
        assert c == name;
      } else {
        assert c[i - 1] == s[(i - 1) + 1];
        assert c[i - 1..] == [QUOTE] + name;
      }
    }
  }

  /** A separator keeps the closing quote of one string and the opening quote of the next from
      enclosing the name. */
  lemma NoMatchAcross(c: Bytes, after: Bytes, name: Bytes)
    requires PlainName(name) && Separated(after)
    ensures !MatchAt(PrintString(c, after), name, |c| + 1)
  {
    var s, i := PrintString(c, after), |c| + 1;
    PrintStringAt(c, after);
    var k: nat :| SeparatorAt(after, k);
    assert k < |name| ==> name[k] in name;
  }

  lemma NoMatchInString(c: Bytes, after: Bytes, name: Bytes, i: nat)
    requires IsStringBody(c) && PlainName(name) && !TakenFor(c, name) && Separated(after) && i < |c| + 2
    ensures !OccursAt(PrintString(c, after), Quoted(name), i)
  {
    MatchAtMeaning(PrintString(c, after), name, i);
    if MatchAt(PrintString(c, after), name, i) {
      if i <= |c| {
        MatchInString(c, after, name, i);
      } else {
        NoMatchAcross(c, after, name);
      }
    }
  }

  lemma NoneInString(c: Bytes, after: Bytes, name: Bytes)
    requires IsStringBody(c) && PlainName(name) && !TakenFor(c, name) && Separated(after)
    ensures NoneBefore(PrintString(c, after), Quoted(name), |c| + 2)
  {
    forall i: nat | i < |c| + 2 ensures !OccursAt(PrintString(c, after), Quoted(name), i) {
      NoMatchInString(c, after, name, i);
    }
  }

  /** A string that is not taken for the name is skipped ... */
  lemma SkipString(c: Bytes, after: Bytes, name: Bytes)
    requires IsStringBody(c) && PlainName(name) && !TakenFor(c, name) && Separated(after)
    ensures Scan(PrintString(c, after), Quoted(name)) == Scan(after, Quoted(name))
  {
    var s := PrintString(c, after);
    PrintStringRest(c, after);
    NoneInString(c, after, name);
    SkipNoMatch(s, Quoted(name), |c| + 2);
  }

  lemma HitPosition(c: Bytes, after: Bytes, name: Bytes)
    requires TakenFor(c, name)
    ensures MatchAt(PrintString(c, after), name, |c| - |name|)
  {
    var s, at := PrintString(c, after), |c| - |name|;
    PrintStringAt(c, after);
    if c != name {
      assert c[at - 1..][0] == QUOTE && s[(at - 1) + 1] == c[at - 1];
    }
    forall k | 0 <= k < |name| ensures s[at + 1 + k] == name[k] {
      assert s[(at + k) + 1] == c[at + k];
      assert c != name ==> c[at - 1..][1 + k] == ([QUOTE] + name)[1 + k];
    }
  }

  lemma HitIndex(c: Bytes, after: Bytes, name: Bytes)
    requires IsStringBody(c) && PlainName(name) && TakenFor(c, name)
    ensures IndexOf(PrintString(c, after), Quoted(name)) == Some(|c| - |name|)
  {
    var s, at := PrintString(c, after), |c| - |name|;
    HitPosition(c, after, name);
    MatchAtMeaning(s, name, at);
    forall i: nat | i < at ensures !OccursAt(s, Quoted(name), i) {
      MatchAtMeaning(s, name, i);
      if MatchAt(s, name, i) {
        MatchInString(c, after, name, i);
      }
    }
    IndexOfMeaning(s, Quoted(name), at);
  }

  lemma ScanFromIndex(s: Bytes, p: Bytes, at: nat)
    requires p != [] && IndexOf(s, p) == Some(at)
    ensures at + |p| <= |s| && Scan(s, p) == Resume(s[at + |p|..], p)
  {
  }

  /** ... and one that is taken for it is matched. */
  lemma HitString(c: Bytes, after: Bytes, name: Bytes)
    requires IsStringBody(c) && PlainName(name) && TakenFor(c, name)
    ensures Scan(PrintString(c, after), Quoted(name)) == Resume(after, Quoted(name))
  {
    assert Scan(PrintString(c, after), Quoted(name)) == Resume(PrintString(c, after)[|c| + 2..], Quoted(name)) by {
      HitIndex(c, after, name);
      ScanFromIndex(PrintString(c, after), Quoted(name), |c| - |name|);
    }
    PrintStringRest(c, after);
  }

  // ---------------------------------------------------------------- members

  lemma ColonSeparates(m: Member, after: Bytes)
    requires IsMember(m)
    ensures Separated(PrintAfterKey(m, after))
  {
    var s := PrintAfterKey(m, after);
    assert forall i | 0 <= i < |m.w2| :: s[i] == m.w2[i] && m.w2[i] in m.w2;
    assert SeparatorAt(s, |m.w2|);
  }

  lemma AfterSeparates(w4: Bytes, more: seq<Member>, trail: Bytes)
    requires AllWhitespace(w4)
    ensures Separated(PrintAfter(w4, more, trail))
    ensures Leading(PrintAfter(w4, more, trail)) == |w4|
    ensures !StartsWithColon(PrintAfter(w4, more, trail))
  {
    var s := PrintAfter(w4, more, trail);
    var rest := if more == [] then [CLOSE] + trail else [COMMA] + PrintMembers(more, trail);
    assert s == w4 + rest;
    assert forall i | 0 <= i < |w4| :: s[i] == w4[i] && w4[i] in w4;
    LeadingOf(w4, rest);
    assert SeparatorAt(s, |w4|);
  }

  /** A string value is passed over, whether or not it equals the name. */
  lemma PassText(body: Bytes, w4: Bytes, more: seq<Member>, trail: Bytes, name: Bytes)
    requires IsStringBody(body) && PlainName(name) && AllWhitespace(w4)
    ensures var after := PrintAfter(w4, more, trail);
      Scan(PrintString(body, after), Quoted(name)) == Scan(after, Quoted(name))
  {
    var after := PrintAfter(w4, more, trail);
    AfterSeparates(w4, more, trail);
    if TakenFor(body, name) {
      HitString(body, after, name);
    } else {
      SkipString(body, after, name);
    }
  }

  /** A member whose key is not taken for the name is passed over. */
  lemma PassMember(ms: seq<Member>, trail: Bytes, name: Bytes)
    requires ms != [] && IsMember(ms[0]) && PlainName(name) && !TakenFor(ms[0].key, name)
    ensures Scan(PrintMembers(ms, trail), Quoted(name)) == Scan(PrintAfter(ms[0].w4, ms[1..], trail), Quoted(name))
  {
    var m := ms[0];
    var after := PrintAfter(m.w4, ms[1..], trail);
    var afterKey := PrintAfterKey(m, after);
    WhitespaceIsQuoteFree(m.w1);
    SkipPlain(m.w1, PrintString(m.key, afterKey), name);
    ColonSeparates(m, after);
    SkipString(m.key, afterKey, name);
    WhitespaceIsQuoteFree(m.w2);
    SkipPlain(m.w2, [COLON] + (m.w3 + PrintValue(m.value, after)), name);
    SkipPlain([COLON], m.w3 + PrintValue(m.value, after), name);
    WhitespaceIsQuoteFree(m.w3);
    SkipPlain(m.w3, PrintValue(m.value, after), name);
    match m.value
    case Text(body) => PassText(body, m.w4, ms[1..], trail, name);
    case Bare(token) => SkipPlain(token, after, name);
  }

  lemma WhitespaceIsQuoteFree(w: Bytes)
    requires AllWhitespace(w)
    ensures QuoteFree(w)
  {
  }

  /** A value that is not a string has no quote before the next separator. */
  lemma {:induction false} NoStringAhead(x: Bytes, k: nat)
    requires SeparatorAt(x, k)
    ensures StringAhead(x) == None
  {
    LeadingStopsBefore(x, k);
  }

  lemma BareAhead(w3: Bytes, token: Bytes, w4: Bytes, more: seq<Member>, trail: Bytes)
    requires AllWhitespace(w3) && QuoteFree(token) && AllWhitespace(w4)
    ensures StringAhead(w3 + (token + PrintAfter(w4, more, trail))) == None
  {
    var after := PrintAfter(w4, more, trail);
    AfterSeparates(w4, more, trail);
    var k: nat :| SeparatorAt(after, k);
    var x := w3 + (token + after);
    forall i | 0 <= i < |w3| + |token| + k ensures x[i] != QUOTE {
      if i < |w3| {
        assert x[i] == w3[i] && w3[i] in w3;
      } else if i < |w3| + |token| {
        assert x[i] == token[i - |w3|] && token[i - |w3|] in token;
      } else {
        assert x[i] == after[i - |w3| - |token|];
      }
    }
    assert x[|w3| + |token| + k] == after[k];
    NoStringAhead(x, |w3| + |token| + k);
  }

  /** The text after a member's key is a colon and the value. */
  lemma ColonAhead(m: Member, after: Bytes)
    requires IsMember(m)
    ensures StartsWithColon(PrintAfterKey(m, after))
    ensures AfterColon(PrintAfterKey(m, after)) == m.w3 + PrintValue(m.value, after)
  {
    var value := m.w3 + PrintValue(m.value, after);
    LeadingOf(m.w2, [COLON] + value);
    assert PrintAfterKey(m, after)[|m.w2| + 1..] == value;
  }

  lemma ValueAhead(m: Member, more: seq<Member>, trail: Bytes)
    requires IsMember(m)
    ensures StringAhead(m.w3 + PrintValue(m.value, PrintAfter(m.w4, more, trail)))
         == (if m.value.Text? then Some(m.value.body) else None)
  {
    var after := PrintAfter(m.w4, more, trail);
    match m.value
    case Text(body) =>
      assert IsStringTextOf(m.w3 + PrintValue(m.value, after), m.w3, body, after);
      TextIsStringAhead(m.w3 + PrintValue(m.value, after), m.w3, body, after);
    case Bare(token) => BareAhead(m.w3, token, m.w4, more, trail);
  }

  /** A member whose key is taken for the name decides the scan. */
  lemma DecideMember(ms: seq<Member>, trail: Bytes, name: Bytes)
    requires ms != [] && IsMember(ms[0]) && PlainName(name) && TakenFor(ms[0].key, name)
    ensures Scan(PrintMembers(ms, trail), Quoted(name)) == (if ms[0].value.Text? then Some(ms[0].value.body) else None)
  {
    var m := ms[0];
    var afterKey := PrintAfterKey(m, PrintAfter(m.w4, ms[1..], trail));
    assert Scan(PrintMembers(ms, trail), Quoted(name)) == Resume(afterKey, Quoted(name)) by {
      WhitespaceIsQuoteFree(m.w1);
      SkipPlain(m.w1, PrintString(m.key, afterKey), name);
      HitString(m.key, afterKey, name);
    }
    ColonAhead(m, PrintAfter(m.w4, ms[1..], trail));
    ValueAhead(m, ms[1..], trail);
  }

  lemma {:induction false} ScanMembers(ms: seq<Member>, trail: Bytes, name: Bytes)
    requires (forall m <- ms :: IsMember(m)) && QuoteFree(trail) && PlainName(name)
    ensures Scan(PrintMembers(ms, trail), Quoted(name)) == ScannedReading(ms, name)
    decreases |ms|
  {
    if ms == [] {
      NothingInPlain([CLOSE] + trail, name);
    } else if TakenFor(ms[0].key, name) {
      DecideMember(ms, trail, name);
    } else {
      var more := ms[1..];
      PassMember(ms, trail, name);
      WhitespaceIsQuoteFree(ms[0].w4);
      ScanMembers(more, trail, name);
      if more == [] {
        SkipPlain(ms[0].w4, [CLOSE] + trail, name);
      } else {
        SkipPlain(ms[0].w4, [COMMA] + PrintMembers(more, trail), name);
        SkipPlain([COMMA], PrintMembers(more, trail), name);
      }
    }
  }

  lemma NothingInPlain(s: Bytes, name: Bytes)
    requires QuoteFree(s)
    ensures Scan(s, Quoted(name)) == None
  {
    SkipPlain(s, [], name);
    assert s + [] == s;
  }

  predicate IsObject(lead: Bytes, inner: Bytes, ms: seq<Member>, trail: Bytes) {
    AllWhitespace(lead) && AllWhitespace(inner) && AllWhitespace(trail) && forall m <- ms :: IsMember(m)
  }

  lemma ScanInside(inner: Bytes, ms: seq<Member>, trail: Bytes)
    requires IsObject([], inner, ms, trail)
    ensures Scan(Inside(inner, ms, trail), Quoted(LOG_LEVEL)) == ScannedReading(ms, LOG_LEVEL)
  {
    WhitespaceIsQuoteFree(trail);
    if ms == [] {
      WhitespaceIsQuoteFree(inner);
      SkipPlain(inner, [CLOSE] + trail, LOG_LEVEL);
      NothingInPlain([CLOSE] + trail, LOG_LEVEL);
    } else {
      ScanMembers(ms, trail, LOG_LEVEL);
    }
  }

  lemma SkipOpening(lead: Bytes, body: Bytes)
    requires AllWhitespace(lead)
    ensures Scan(lead + ([OPEN] + body), Quoted(LOG_LEVEL)) == Scan(body, Quoted(LOG_LEVEL))
  {
    WhitespaceIsQuoteFree(lead);
    SkipPlain(lead, [OPEN] + body, LOG_LEVEL);
    SkipPlain([OPEN], body, LOG_LEVEL);
  }

  /** For every flat object and every way of writing whitespace between its tokens, the scan of its
      bytes gives the raw string value of the first member whose key is taken for log_level, and
      nothing exactly when there is no such member or its value is not a string.  That log_level also
      occurs as a value, or inside one, makes no difference. */
  lemma ScanOfObject(lead: Bytes, inner: Bytes, ms: seq<Member>, trail: Bytes)
    requires IsObject(lead, inner, ms, trail)
    ensures Scan(Print(lead, inner, ms, trail), Quoted(LOG_LEVEL)) == ScannedReading(ms, LOG_LEVEL)
  {
    SkipOpening(lead, Inside(inner, ms, trail));
    ScanInside(inner, ms, trail);
  }

  // ---------------------------------------------------------------- scan and reading compared

  /** A key that is written like the rest of the name, without escapes, spells it. */
  lemma {:induction false} SpellsVerbatim(key: Bytes, i: nat, name: Bytes, j: nat)
    requires i <= |key| && j <= |name| && |key| - i == |name| - j && PlainName(name)
    requires forall k | i <= k < |key| :: key[k] == name[j + k - i]
    ensures SpellsFrom(key, i, name, j)
    decreases |key| - i
  {
    if i < |key| {
      assert key[i] == name[j] && name[j] in name;
      SpellsVerbatim(key, i + 1, name, j + 1);
    }
  }

  /** A key without escapes spells only itself. */
  lemma {:induction false} VerbatimSpells(key: Bytes, i: nat, name: Bytes, j: nat)
    requires i <= |key| && j <= |name| && 0x5C !in key && SpellsFrom(key, i, name, j)
    ensures key[i..] == name[j..]
    decreases |key| - i
  {
    if i < |key| {
      assert key[i] in key;
      VerbatimSpells(key, i + 1, name, j + 1);
      assert key[i..] == [key[i]] + key[i + 1..] && name[j..] == [name[j]] + name[j + 1..];
    }
  }

  /** Hexadecimal digits are not part of an escape or a closing quote. */
  lemma PassHex(key: Bytes, i: nat)
    requires i < |key| && HexDigit(key[i]).Some? && IsBodyFrom(key, i)
    ensures IsBodyFrom(key, i + 1)
  {
  }

  lemma PassUnicode(key: Bytes, i: nat)
    requires i + 6 <= |key| && IsBodyFrom(key, i) && key[i] == 0x5C && key[i + 1] == 0x75
    requires EscapeAt(key, i).Some?
    ensures IsBodyFrom(key, i + 6)
    ensures forall k | i + 1 <= k < i + 6 :: key[k] != QUOTE
  {
    PassHex(key, i + 2);
    PassHex(key, i + 3);
    PassHex(key, i + 4);
    PassHex(key, i + 5);
  }

  /** An escaped quote decodes to a quote, which the name does not contain. */
  lemma {:induction false} NoQuoteSpelled(key: Bytes, i: nat, name: Bytes, j: nat, p: nat)
    requires i <= p < |key| && key[p] == QUOTE && j <= |name| && IsBodyFrom(key, i) && PlainName(name)
    ensures !SpellsFrom(key, i, name, j)
    decreases |key| - i
  {
    if SpellsFrom(key, i, name, j) {
      assert name[j] in name;
      if key[i] != 0x5C {
        NoQuoteSpelled(key, i + 1, name, j + 1, p);
      } else if key[i + 1] == 0x75 {
        PassUnicode(key, i);
        NoQuoteSpelled(key, i + 6, name, j + 1, p);
      } else if p > i + 1 {
        NoQuoteSpelled(key, i + 2, name, j + 1, p);
      }
    }
  }

  /** Only the plain key is both taken for the name and spells it. */
  lemma TakenAndSpelled(key: Bytes, name: Bytes)
    requires IsStringBody(key) && PlainName(name)
    ensures TakenFor(key, name) && Spells(key, name) <==> key == name
  {
    if key == name {
      SpellsVerbatim(key, 0, name, 0);
    } else if TakenFor(key, name) {
      var p := |key| - |name| - 1;
      assert key[p..][0] == QUOTE;
      NoQuoteSpelled(key, 0, name, 0, p);
    }
  }

  predicate Concerns(key: Bytes, name: Bytes) {
    TakenFor(key, name) || Spells(key, name)
  }

  /** The first key that is taken for the name or spells it, if there is one, is the plain name. */
  predicate KeysSafe(ms: seq<Member>, name: Bytes) {
    ms == [] || ms[0].key == name || (!Concerns(ms[0].key, name) && KeysSafe(ms[1..], name))
  }

  predicate SameKeys(ms: seq<Member>, ns: seq<Member>) {
    |ms| == |ns| && forall i | 0 <= i < |ms| :: ms[i].key == ns[i].key
  }

  lemma {:induction false} SafeReadingsAgree(ms: seq<Member>, name: Bytes)
    requires KeysSafe(ms, name) && PlainName(name)
    ensures ScannedReading(ms, name) == Reading(ms, name)
  {
    if ms != [] {
      if ms[0].key == name {
        SpellsVerbatim(name, 0, name, 0);
      } else {
        SafeReadingsAgree(ms[1..], name);
      }
    }
  }

  const LETTER: Bytes := [0x61]

  /** The same keys, with the empty string under the first that concerns the name and "a" elsewhere. */
  function Trap(ms: seq<Member>, sprung: bool, name: Bytes): (ns: seq<Member>)
    ensures SameKeys(ms, ns)
  {
    if ms == [] then []
    else
      var now := !sprung && Concerns(ms[0].key, name);
      [ms[0].(value := Text(if now then [] else LETTER))] + Trap(ms[1..], sprung || now, name)
  }

  predicate StringsOnly(ns: seq<Member>) {
    forall n <- ns :: n.value == Text([]) || n.value == Text(LETTER)
  }

  lemma {:induction false} TrapIsPrintable(ms: seq<Member>, sprung: bool, name: Bytes)
    requires forall m <- ms :: IsMember(m)
    ensures forall n <- Trap(ms, sprung, name) :: IsMember(n)
    ensures StringsOnly(Trap(ms, sprung, name))
    decreases |ms|
  {
    if ms != [] {
      assert IsBodyFrom(LETTER, 1);
      assert IsMember(ms[0]) && IsMember(Trap(ms, sprung, name)[0]);
      TrapIsPrintable(ms[1..], sprung || Concerns(ms[0].key, name), name);
      TrapIsPrintable(ms[1..], sprung, name);
    }
  }

  lemma {:induction false} SprungTrap(ms: seq<Member>, name: Bytes)
    ensures Reading(Trap(ms, true, name), name) != Some([])
    ensures ScannedReading(Trap(ms, true, name), name) != Some([])
    decreases |ms|
  {
    if ms != [] {
      SprungTrap(ms[1..], name);
      assert Trap(ms, true, name)[1..] == Trap(ms[1..], true, name);
    }
  }

  lemma {:induction false} TrapReading(ms: seq<Member>, name: Bytes)
    requires !KeysSafe(ms, name) && PlainName(name) && forall m <- ms :: IsMember(m)
    ensures Reading(Trap(ms, false, name), name) != ScannedReading(Trap(ms, false, name), name)
    decreases |ms|
  {
    var now := Concerns(ms[0].key, name);
    var trap := Trap(ms, false, name);
    assert trap[1..] == Trap(ms[1..], now, name);
    assert IsMember(ms[0]);
    TakenAndSpelled(ms[0].key, name);
    if now {
      SprungTrap(ms[1..], name);
    } else {
      TrapReading(ms[1..], name);
    }
  }

  /** Under keys that are not safe, there are strings as values for which the scan is not the reading. */
  lemma UnsafeKeysAreMisread(lead: Bytes, inner: Bytes, ms: seq<Member>, trail: Bytes) returns (ns: seq<Member>)
    requires IsObject(lead, inner, ms, trail) && !KeysSafe(ms, LOG_LEVEL)
    ensures SameKeys(ms, ns) && IsObject(lead, inner, ns, trail) && StringsOnly(ns)
    ensures Scan(Print(lead, inner, ns, trail), Quoted(LOG_LEVEL)) != Reading(ns, LOG_LEVEL)
  {
    ns := Trap(ms, false, LOG_LEVEL);
    TrapIsPrintable(ms, false, LOG_LEVEL);
    ScanOfObject(lead, inner, ns, trail);
    TrapReading(ms, LOG_LEVEL);
  }

  /** The scan is the JSON reading, whatever the values, if and only if the first key that is taken for
      log_level or spells it, if there is one, is the plain log_level. */
  lemma ScanIsReading(lead: Bytes, inner: Bytes, ms: seq<Member>, trail: Bytes)
    requires IsObject(lead, inner, ms, trail)
    ensures KeysSafe(ms, LOG_LEVEL) <==>
      forall ns | SameKeys(ms, ns) && IsObject(lead, inner, ns, trail) ::
        Scan(Print(lead, inner, ns, trail), Quoted(LOG_LEVEL)) == Reading(ns, LOG_LEVEL)
  {
    if KeysSafe(ms, LOG_LEVEL) {
      forall ns | SameKeys(ms, ns) && IsObject(lead, inner, ns, trail)
        ensures Scan(Print(lead, inner, ns, trail), Quoted(LOG_LEVEL)) == Reading(ns, LOG_LEVEL)
      {
        SafetyIsAboutKeys(ms, ns, LOG_LEVEL);
        ScanOfObject(lead, inner, ns, trail);
        SafeReadingsAgree(ns, LOG_LEVEL);
      }
    } else {
      var ns := UnsafeKeysAreMisread(lead, inner, ms, trail);
    }
  }

  lemma {:induction false} SafetyIsAboutKeys(ms: seq<Member>, ns: seq<Member>, name: Bytes)
    requires SameKeys(ms, ns) && KeysSafe(ms, name)
    ensures KeysSafe(ns, name)
  {
    if ms != [] && ms[0].key != name {
      SafetyIsAboutKeys(ms[1..], ns[1..], name);
    }
  }

  lemma PlainKeyConcerns(key: Bytes, name: Bytes)
    requires IsStringBody(key) && 0x5C !in key && Concerns(key, name)
    ensures key == name
  {
    if Spells(key, name) {
      VerbatimSpells(key, 0, name, 0);
      assert key[0..] == key && name[0..] == name;
    } else if key != name {
      assert key[|key| - |name| - 1..][0] == QUOTE;
      QuotesAreEscaped(key, 0, |key| - |name| - 1);
    }
  }

  /** Objects whose keys contain no escapes are safe, so the scan is their JSON reading. */
  lemma {:induction false} PlainKeysAreSafe(ms: seq<Member>, name: Bytes)
    requires forall m <- ms :: IsMember(m) && 0x5C !in m.key
    ensures KeysSafe(ms, name)
  {
    if ms != [] {
      if Concerns(ms[0].key, name) {
        PlainKeyConcerns(ms[0].key, name);
      }
      PlainKeysAreSafe(ms[1..], name);
    }
  }

  // ---------------------------------------------------------------- two objects that are misread

  function Single(key: Bytes): seq<Member> {
    [Member(key, Text(LETTER), [], [], [], [])]
  }

  /** Without quotes and backslashes there is nothing to escape. */
  lemma {:induction false} PlainBody(v: Bytes, i: nat)
    requires i <= |v| && forall k | i <= k < |v| :: v[k] != QUOTE && v[k] != 0x5C
    ensures IsBodyFrom(v, i)
    decreases |v| - i
  {
    if i < |v| {
      PlainBody(v, i + 1);
    }
  }

  /** The key \"log_level: another name, but the scanner takes it for log_level. */
  lemma EscapedQuoteIsMisread()
    ensures var ms := Single([0x5C, QUOTE] + LOG_LEVEL);
      && IsObject([], [], ms, [])
      && Scan(Print([], [], ms, []), Quoted(LOG_LEVEL)) == Some(LETTER)
      && Reading(ms, LOG_LEVEL) == None
  {
    var key := [0x5C, QUOTE] + LOG_LEVEL;
    var ms := Single(key);
    PlainBody(key, 2);
    PlainBody(LETTER, 0);
    assert key[1..] == [QUOTE] + LOG_LEVEL && TakenFor(key, LOG_LEVEL);
    TakenAndSpelled(key, LOG_LEVEL);
    ScanOfObject([], [], ms, []);
    assert ms[1..] == [];
  }

  /** The key \u006Cog_level: it spells log_level, but the scanner does not see it. */
  lemma EscapedLetterIsMissed()
    ensures var ms := Single([0x5C, 0x75, 0x30, 0x30, 0x36, 0x43] + LOG_LEVEL[1..]);
      && IsObject([], [], ms, [])
      && Scan(Print([], [], ms, []), Quoted(LOG_LEVEL)) == None
      && Reading(ms, LOG_LEVEL) == Some(LETTER)
  {
    var key := [0x5C, 0x75, 0x30, 0x30, 0x36, 0x43] + LOG_LEVEL[1..];
    var ms := Single(key);
    PlainBody(key, 2);
    PlainBody(LETTER, 0);
    assert EscapeAt(key, 0) == Some(Escape(0x6C, 6));
    SpellsVerbatim(key, 6, LOG_LEVEL, 1);
    assert !TakenFor(key, LOG_LEVEL) by {
      assert key[4..][0] == 0x36;
    }
    ScanOfObject([], [], ms, []);
    assert ms[1..] == [];
  }

  const DOCUMENT: Bytes :=
    [0x7B, 0x22, 0x6C, 0x6F, 0x67, 0x5F, 0x6C, 0x65, 0x76, 0x65, 0x6C, 0x22, 0x3A, 0x0A, 0x22, 0x61, 0x22, 0x7D]

  function DocumentMember(): Member {
    Member(LOG_LEVEL, Text(LETTER), [], [], [0x0A], [])
  }

  lemma PrintedDocument()
    ensures Print([], [], [DocumentMember()], []) == DOCUMENT
  {
    var m := DocumentMember();
    assert [m][1..] == [];
    var close := PrintAfter([], [], []);
    assert close == [0x7D];
    var value := PrintValue(m.value, close);
    assert value == [0x22, 0x61, 0x22, 0x7D];
    var afterKey := PrintAfterKey(m, close);
    assert afterKey == [0x3A, 0x0A, 0x22, 0x61, 0x22, 0x7D];
    var members := PrintMembers([m], []);
    assert members == [] + ([0x22] + (LOG_LEVEL + [0x22] + afterKey));
    assert members == DOCUMENT[1..];
  }

  /** A document byte by byte: an object with the member log_level, a line feed before its value. */
  lemma PrettyPrinted()
    ensures Scan(DOCUMENT, Quoted(LOG_LEVEL)) == Some([0x61])
  {
    var ms := [DocumentMember()];
    PrintedDocument();
    PlainBody(LOG_LEVEL, 0);
    PlainBody(LETTER, 0);
    ScanOfObject([], [], ms, []);
  }
}
