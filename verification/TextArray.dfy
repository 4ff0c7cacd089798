// validateTextArrayWire of internal/authpolicy/postgresql.go: the text form of a one-dimensional
// PostgreSQL array (section 8.15.6 of its documentation, without whitespace to strip).
module TextArray {
  import opened Common

  const QUOTE: Byte := 34
  const COMMA: Byte := 44
  const BACKSLASH: Byte := 92
  const OPEN: Byte := 123
  const CLOSE: Byte := 125

  // ---- The grammar ------------------------------------------------------------------------------

  // A unit of an element decodes to one byte.
  datatype Part = Plain(c: Byte) | Escaped(c: Byte)

  datatype Element = Element(quoted: bool, parts: seq<Part>)

  predicate PartAllowed(p: Part, quoted: bool) {
    p.Plain? ==>
      p.c != BACKSLASH && p.c != QUOTE && (!quoted ==> p.c != COMMA && p.c != OPEN && p.c != CLOSE)
  }

  function PartText(p: Part): Bytes {
    if p.Plain? then [p.c] else [BACKSLASH, p.c]
  }

  function PartsText(ps: seq<Part>): Bytes {
    if |ps| == 0 then [] else PartText(ps[0]) + PartsText(ps[1..])
  }

  function ElementText(e: Element): Bytes {
    if e.quoted then [QUOTE] + PartsText(e.parts) + [QUOTE] else PartsText(e.parts)
  }

  function Decoded(e: Element): Bytes {
    seq(|e.parts|, i requires 0 <= i < |e.parts| => e.parts[i].c)
  }

  // The word NULL in any case, which stands for a null element when it is not quoted.
  predicate IsNull(s: Bytes) {
    |s| == 4 && (s[0] == 78 || s[0] == 110) && (s[1] == 85 || s[1] == 117) && (s[2] == 76 || s[2] == 108)
      && (s[3] == 76 || s[3] == 108)
  }

  function Lower(b: Byte): Byte {
    if 65 <= b <= 90 then b + 32 else b
  }

  // In lower case it is "null".
  lemma NullInAnyCase(s: Bytes)
    ensures IsNull(s) <==> seq(|s|, i requires 0 <= i < |s| => Lower(s[i])) == [110, 117, 108, 108]
  {
    var lower := seq(|s|, i requires 0 <= i < |s| => Lower(s[i]));
    assert |s| == 4 ==> lower == [Lower(s[0]), Lower(s[1]), Lower(s[2]), Lower(s[3])];
  }

  ghost predicate Good(e: Element, maxBytes: nat) {
    && (forall i :: 0 <= i < |e.parts| ==> PartAllowed(e.parts[i], e.quoted))
    && 1 <= |e.parts| <= maxBytes && (!e.quoted ==> !IsNull(PartsText(e.parts)))
  }

  function Joined(es: seq<Element>): Bytes {
    if |es| == 0 then [] else if |es| == 1 then ElementText(es[0]) else ElementText(es[0]) + [COMMA] + Joined(es[1..])
  }

  function ArrayText(es: seq<Element>): Bytes {
    [OPEN] + Joined(es) + [CLOSE]
  }

  // An array of at most so many non-null elements of at most so many bytes.
  ghost predicate GoodArray(es: seq<Element>, maxElements: nat, maxBytes: nat) {
    |es| <= maxElements && forall i :: 0 <= i < |es| ==> Good(es[i], maxBytes)
  }

  // ---- Scanning, as the loops do it ------------------------------------------------------------------

  datatype Scan = Bad | Scanned(parts: seq<Part>, rest: Bytes, closed: bool)

  function Before(p: Part, s: Scan): Scan {
    if s.Bad? then Bad else s.(parts := [p] + s.parts)
  }

  function ScanParts(b: Bytes, quoted: bool): Scan
    decreases |b|
  {
    if |b| == 0 then Scanned([], [], !quoted)
    else if b[0] == BACKSLASH then if |b| == 1 then Bad else Before(Escaped(b[1]), ScanParts(b[2..], quoted))
    else if quoted && b[0] == QUOTE then Scanned([], b[1..], true)
    else if !quoted && b[0] == COMMA then Scanned([], b, true)
    else if !quoted && (b[0] == QUOTE || b[0] == OPEN || b[0] == CLOSE) then Bad
    else Before(Plain(b[0]), ScanParts(b[1..], quoted))
  }

  function ParseElement(b: Bytes, maxBytes: nat): Option<(Element, Bytes)>
    requires |b| > 0
  {
    var quoted := b[0] == QUOTE;
    var s := ScanParts(if quoted then b[1..] else b, quoted);
    if s.Bad? || !s.closed || |s.parts| < 1 || |s.parts| > maxBytes || (!quoted && IsNull(PartsText(s.parts))) then None
    else Some((Element(quoted, s.parts), s.rest))
  }

  function ParseList(b: Bytes, maxElements: nat, maxBytes: nat): Option<seq<Element>>
    requires |b| > 0
    decreases |b|, maxElements
  {
    if maxElements == 0 then None
    else
      match ParseElement(b, maxBytes)
      case None => None
      case Some((e, rest)) =>
        if |rest| == 0 then Some([e])
        else if rest[0] != COMMA || |rest| == 1 || |rest| > |b| then None
        else
          match ParseList(rest[1..], maxElements - 1, maxBytes)
          case None => None
          case Some(es) => Some([e] + es)
  }

  function Parse(value: Bytes, maxElements: nat, maxBytes: nat): Option<seq<Element>> {
    if |value| < 2 || value[0] != OPEN || value[|value| - 1] != CLOSE then None
    else if |value| == 2 then Some([])
    else ParseList(value[1..|value| - 1], maxElements, maxBytes)
  }

  // ---- Every text parses in at most one way --------------------------------------------------------------

  // What a scan leaves behind the parts: the closing quote and the rest.
  function Tail(s: Scan, quoted: bool): Bytes
    requires s.Scanned?
  {
    (if quoted && s.closed then [QUOTE] else []) + s.rest
  }

  lemma TextOfMore(p: Part, ps: seq<Part>, tail: Bytes)
    ensures PartsText([p] + ps) + tail == PartText(p) + (PartsText(ps) + tail)
  {
    assert ([p] + ps)[1..] == ps;
  }

  lemma {:induction false} ScanAllowed(b: Bytes, quoted: bool)
    ensures var s := ScanParts(b, quoted);
      s.Scanned? ==> forall i :: 0 <= i < |s.parts| ==> PartAllowed(s.parts[i], quoted)
    decreases |b|
  {
    if |b| > 1 && b[0] == BACKSLASH {
      ScanAllowed(b[2..], quoted);
    } else if |b| > 0 && b[0] != BACKSLASH {
      ScanAllowed(b[1..], quoted);
    }
  }

  lemma {:induction false} ScanSound(b: Bytes, quoted: bool)
    ensures var s := ScanParts(b, quoted);
      (s.Scanned? ==>
         && b == PartsText(s.parts) + Tail(s, quoted)
         && (!quoted ==> s.closed && (s.rest == [] || s.rest[0] == COMMA)) && (quoted && !s.closed ==> s.rest == []))
    decreases |b|
  {
    if |b| > 1 && b[0] == BACKSLASH {
      ScanSound(b[2..], quoted);
      var more := ScanParts(b[2..], quoted);
      if more.Scanned? {
        TextOfMore(Escaped(b[1]), more.parts, Tail(more, quoted));
        assert b == [b[0], b[1]] + b[2..];
      }
    } else if |b| > 0 && quoted && b[0] == QUOTE {
      assert b == [] + ([QUOTE] + b[1..]);
    } else if |b| > 0 && !quoted && b[0] == COMMA {
      assert b == [] + ([] + b);
    } else if |b| > 0 && b[0] != BACKSLASH {
      ScanSound(b[1..], quoted);
      var more := ScanParts(b[1..], quoted);
      if more.Scanned? {
        TextOfMore(Plain(b[0]), more.parts, Tail(more, quoted));
        assert b == [b[0]] + b[1..];
      }
    }
  }

  lemma {:induction false} ScanComplete(ps: seq<Part>, quoted: bool, rest: Bytes)
    requires forall i :: 0 <= i < |ps| ==> PartAllowed(ps[i], quoted)
    requires !quoted ==> rest == [] || rest[0] == COMMA
    ensures ScanParts(PartsText(ps) + Tail(Scanned(ps, rest, true), quoted), quoted) == Scanned(ps, rest, true)
  {
    var tail := Tail(Scanned(ps, rest, true), quoted);
    if |ps| == 0 {
      assert PartsText(ps) + tail == tail;
      assert quoted ==> tail[1..] == rest;
      assert !quoted ==> tail == rest;
    } else {
      ScanComplete(ps[1..], quoted, rest);
      var b, more := PartsText(ps) + tail, PartsText(ps[1..]) + tail;
      assert ps == [ps[0]] + ps[1..] && PartAllowed(ps[0], quoted);
      TextOfMore(ps[0], ps[1..], tail);
      if ps[0].Plain? {
        assert b[0] == ps[0].c && b[1..] == more;
      } else {
        assert b[0] == BACKSLASH && b[1] == ps[0].c && b[2..] == more;
      }
    }
  }

  lemma ElementSound(b: Bytes, maxBytes: nat)
    requires |b| > 0
    ensures var r := ParseElement(b, maxBytes);
      r.Some? ==>
        && Good(r.value.0, maxBytes) && b == ElementText(r.value.0) + r.value.1 && |r.value.1| < |b|
        && (!r.value.0.quoted ==> r.value.1 == [] || r.value.1[0] == COMMA)
  {
    var quoted := b[0] == QUOTE;
    var inside := if quoted then b[1..] else b;
    var s := ScanParts(inside, quoted);
    ScanSound(inside, quoted);
    ScanAllowed(inside, quoted);
    PartsNonempty(s);
    hide ScanParts, PartsText, IsNull, PartAllowed;
    if s.Scanned? && s.closed && quoted {
      InQuotes(b, PartsText(s.parts), s.rest);
    }
  }

  lemma InQuotes(b: Bytes, text: Bytes, rest: Bytes)
    requires |b| > 0 && b[0] == QUOTE && b[1..] == text + ([QUOTE] + rest)
    ensures b == [QUOTE] + text + [QUOTE] + rest
  {
    assert b == [b[0]] + b[1..];
  }

  lemma PartsNonempty(s: Scan)
    ensures s.Scanned? && |s.parts| > 0 ==> |PartsText(s.parts)| > 0
  {
  }

  lemma ElementComplete(e: Element, rest: Bytes, maxBytes: nat)
    requires Good(e, maxBytes) && (rest == [] || rest[0] == COMMA)
    ensures |ElementText(e)| > 0 && ParseElement(ElementText(e) + rest, maxBytes) == Some((e, rest))
  {
    ScanComplete(e.parts, e.quoted, rest);
    var b := ElementText(e) + rest;
    assert PartAllowed(e.parts[0], e.quoted);
    if e.quoted {
      assert b[1..] == PartsText(e.parts) + ([QUOTE] + rest);
    } else {
      assert b == PartsText(e.parts) + ([] + rest);
      assert b[0] == PartText(e.parts[0])[0];
    }
  }

  lemma {:induction false} ListSound(b: Bytes, maxElements: nat, maxBytes: nat)
    requires |b| > 0
    ensures var r := ParseList(b, maxElements, maxBytes);
      r.Some? ==> GoodArray(r.value, maxElements, maxBytes) && |r.value| > 0 && b == Joined(r.value)
    decreases |b|
  {
    hide ParseElement, Good, ElementText;
    if maxElements > 0 && ParseElement(b, maxBytes).Some? {
      ElementSound(b, maxBytes);
      var (e, rest) := ParseElement(b, maxBytes).value;
      if |rest| > 1 && rest[0] == COMMA {
        ListSound(rest[1..], maxElements - 1, maxBytes);
        var more := ParseList(rest[1..], maxElements - 1, maxBytes);
        if more.Some? {
          assert ([e] + more.value)[1..] == more.value;
          assert rest == [COMMA] + rest[1..];
        }
      }
    }
  }

  lemma {:induction false} ListComplete(es: seq<Element>, maxElements: nat, maxBytes: nat)
    requires GoodArray(es, maxElements, maxBytes) && |es| > 0
    ensures |Joined(es)| > 0 && ParseList(Joined(es), maxElements, maxBytes) == Some(es)
  {
    hide ParseElement, Good, ElementText;
    if |es| == 1 {
      ElementComplete(es[0], [], maxBytes);
      assert Joined(es) + [] == Joined(es) && es == [es[0]];
    } else {
      ListComplete(es[1..], maxElements - 1, maxBytes);
      var rest := [COMMA] + Joined(es[1..]);
      ElementComplete(es[0], rest, maxBytes);
      assert Joined(es) == ElementText(es[0]) + rest && rest[1..] == Joined(es[1..]);
      assert es == [es[0]] + es[1..];
    }
  }

  // A value parses to a list exactly if it is the text of that list and the list is good; so no
  // value is the text of two lists.
  lemma ParseExact(value: Bytes, maxElements: nat, maxBytes: nat, es: seq<Element>)
    ensures Parse(value, maxElements, maxBytes) == Some(es) <==>
      GoodArray(es, maxElements, maxBytes) && value == ArrayText(es)
  {
    if GoodArray(es, maxElements, maxBytes) && value == ArrayText(es) {
      assert value[1..|value| - 1] == Joined(es);
      if |es| > 0 {
        ListComplete(es, maxElements, maxBytes);
      }
    }
    if Parse(value, maxElements, maxBytes) == Some(es) {
      var b := value[1..|value| - 1];
      assert value == [OPEN] + b + [CLOSE];
      if |value| > 2 {
        ListSound(b, maxElements, maxBytes);
      }
    }
  }

  lemma OneReading(a: seq<Element>, b: seq<Element>, maxElements: nat, maxBytes: nat)
    requires GoodArray(a, maxElements, maxBytes) && GoodArray(b, maxElements, maxBytes) && ArrayText(a) == ArrayText(b)
    ensures a == b
  {
    ParseExact(ArrayText(a), maxElements, maxBytes, a);
    ParseExact(ArrayText(a), maxElements, maxBytes, b);
  }

  // ---- The validator -----------------------------------------------------------------------------------

  function Prepended(ps: seq<Part>, s: Scan): Scan {
    if s.Bad? then Bad else s.(parts := ps + s.parts)
  }

  // What one byte does to a scan that has come so far.
  lemma ScanStep(ps: seq<Part>, b: Bytes, quoted: bool)
    ensures |b| == 0 ==> Prepended(ps, ScanParts(b, quoted)) == Scanned(ps, [], !quoted)
    ensures |b| == 1 && b[0] == BACKSLASH ==> Prepended(ps, ScanParts(b, quoted)) == Bad
    ensures |b| > 1 && b[0] == BACKSLASH ==>
      Prepended(ps, ScanParts(b, quoted)) == Prepended(ps + [Escaped(b[1])], ScanParts(b[2..], quoted))
    ensures |b| > 0 && quoted && b[0] == QUOTE ==> Prepended(ps, ScanParts(b, quoted)) == Scanned(ps, b[1..], true)
    ensures |b| > 0 && !quoted && b[0] == COMMA ==> Prepended(ps, ScanParts(b, quoted)) == Scanned(ps, b, true)
    ensures |b| > 0 && !quoted && (b[0] == QUOTE || b[0] == OPEN || b[0] == CLOSE) ==>
      Prepended(ps, ScanParts(b, quoted)) == Bad
    ensures |b| > 0 && Ordinary(b[0], quoted) ==>
      Prepended(ps, ScanParts(b, quoted)) == Prepended(ps + [Plain(b[0])], ScanParts(b[1..], quoted))
  {
    assert ps + [] == ps;
    if |b| > 1 && b[0] == BACKSLASH {
      PrependPart(ps, Escaped(b[1]), ScanParts(b[2..], quoted));
    } else if |b| > 0 && Ordinary(b[0], quoted) {
      PrependPart(ps, Plain(b[0]), ScanParts(b[1..], quoted));
    }
  }

  predicate Ordinary(c: Byte, quoted: bool) {
    c != BACKSLASH && c != QUOTE && (quoted || (c != COMMA && c != OPEN && c != CLOSE))
  }

  lemma PrependPart(ps: seq<Part>, p: Part, s: Scan)
    ensures Prepended(ps, Before(p, s)) == Prepended(ps + [p], s)
  {
    if s.Scanned? {
      assert ps + ([p] + s.parts) == ps + [p] + s.parts;
    }
  }

  lemma PrependNone(s: Scan)
    ensures Prepended([], s) == s
  {
  }

  // One turn of the outer loop, from what the inner loop found.
  lemma ElementScanned(b: Bytes, left: nat, maxBytes: nat, s: Scan)
    requires |b| > 0 && left > 0
    requires s == ScanParts(if b[0] == QUOTE then b[1..] else b, b[0] == QUOTE)
    ensures ParseList(b, left, maxBytes).Some? <==>
      && s.Scanned? && s.closed && 1 <= |s.parts| <= maxBytes && (b[0] != QUOTE ==> !IsNull(PartsText(s.parts)))
      && (|s.rest| == 0 || (s.rest[0] == COMMA && |s.rest| > 1 && ParseList(s.rest[1..], left - 1, maxBytes).Some?))
  {
    ElementSound(b, maxBytes);
  }

  lemma RawText(b: Bytes, s: Scan)
    requires s == ScanParts(b, false) && s.Scanned?
    ensures |s.rest| <= |b| && PartsText(s.parts) == b[..|b| - |s.rest|]
  {
    ScanSound(b, false);
    var text := PartsText(s.parts);
    assert b == text + s.rest;
  }

  // One element has been scanned, to the end or to something that cannot be scanned.
  lemma ElementFound(b: Bytes, left: nat, maxBytes: nat, quoted: bool, s: Scan)
    requires |b| > 0 && left > 0 && quoted == (b[0] == QUOTE)
    requires s == ScanParts(if quoted then b[1..] else b, quoted)
    ensures s.Bad? ==> ParseList(b, left, maxBytes).None?
    ensures s.Scanned? && (!s.closed || |s.parts| < 1 || |s.parts| > maxBytes) ==> ParseList(b, left, maxBytes).None?
    ensures s.Scanned? && !quoted ==>
      |s.rest| <= |b| && (IsNull(b[..|b| - |s.rest|]) ==> ParseList(b, left, maxBytes).None?)
    ensures s.Scanned? && |s.rest| > 0 && (s.rest[0] != COMMA || |s.rest| == 1) ==> ParseList(b, left, maxBytes).None?
    ensures (s.Scanned? && s.closed && 1 <= |s.parts| <= maxBytes && (!quoted ==> !IsNull(b[..|b| - |s.rest|]))) ==>
      && (|s.rest| == 0 ==> ParseList(b, left, maxBytes).Some?)
      && (|s.rest| > 1 && s.rest[0] == COMMA ==>
            (ParseList(b, left, maxBytes).Some? <==> ParseList(s.rest[1..], left - 1, maxBytes).Some?))
  {
    ElementScanned(b, left, maxBytes, s);
    if s.Scanned? && !quoted {
      RawText(b, s);
    }
  }

  // The inner loop: from start, just past an opening quote if there is one, to the end of the element.
  method ScanElement(value: Bytes, start: nat, quoted: bool) returns (bad: bool, i: nat, decoded: nat, closed: bool)
    requires 2 <= |value| && start <= |value| - 1
    ensures start <= i <= |value| - 1
    ensures bad ==> ScanParts(value[start..|value| - 1], quoted).Bad?
    ensures !bad ==>
      var s := ScanParts(value[start..|value| - 1], quoted);
      s.Scanned? && |s.parts| == decoded && s.rest == value[i..|value| - 1] && s.closed == closed
  {
    hide ScanParts, Before, Prepended;
    i, decoded, closed := start, 0, !quoted;
    ghost var n, parts, whole := |value| - 1, [], ScanParts(value[start..|value| - 1], quoted);
    PrependNone(whole);
    while i < |value| - 1
      invariant start <= i <= n && |parts| == decoded && closed == !quoted
      invariant whole == Prepended(parts, ScanParts(value[i..n], quoted))
      decreases |value| - i
    {
      var c := value[i];
      ghost var here := value[i..n];
      ScanStep(parts, here, quoted);
      if c == BACKSLASH {
        i := i + 1;
        if i >= |value| - 1 {
          return true, i, decoded, closed;
        }
        parts := parts + [Escaped(value[i])];
        decoded := decoded + 1;
        i := i + 1;
        assert value[i..n] == here[2..];
        continue;
      }
      if quoted {
        if c == QUOTE {
          i := i + 1;
          closed := true;
          assert value[i..n] == here[1..];
          return false, i, decoded, closed;
        }
      } else if c == COMMA {
        return false, i, decoded, closed;
      } else if c == QUOTE || c == OPEN || c == CLOSE {
        return true, i, decoded, closed;
      }
      parts := parts + [Plain(c)];
      decoded := decoded + 1;
      i := i + 1;
      assert value[i..n] == here[1..];
    }
    ScanStep(parts, value[i..n], quoted);
    bad := false;
  }

  // One turn of the outer loop: the element at i and the separator after it. end is where the
  // next element starts, or the closing brace.
  method NextElement(value: Bytes, at: nat, ghost left: nat, maxElementBytes: nat) returns (ok: bool, end: nat)
    requires 2 <= |value| && 1 <= at < |value| - 1 && left > 0
    ensures var n := |value| - 1;
      var parses := ParseList(value[at..n], left, maxElementBytes).Some?;
      && (!ok ==> !parses)
      && (ok ==> at < end <= n && (parses <==> end == n || ParseList(value[end..n], left - 1, maxElementBytes).Some?))
  {
    hide ParseList, ScanParts, IsNull;
    ghost var n, b := |value| - 1, value[at..|value| - 1];
    var i, quoted := at, false;
    if value[i] == QUOTE {
      quoted := true;
      i := i + 1;
    }
    var start := i;
    ghost var inside := value[start..n];
    assert inside == if quoted then b[1..] else b;
    ghost var whole := ScanParts(inside, quoted);
    ElementFound(b, left, maxElementBytes, quoted, whole);
    var bad, decoded, closed;
    bad, i, decoded, closed := ScanElement(value, start, quoted);
    if bad || !closed || decoded < 1 || decoded > maxElementBytes {
      return false, i;
    }
    if !quoted {
      Slices(value, at, i, n);
    }
    if !quoted && IsNull(value[start..i]) {
      return false, i;
    }
    if i == |value| - 1 {
      return true, i;
    }
    if value[i] != COMMA {
      return false, i;
    }
    Slices(value, at, i, n);
    i := i + 1;
    return i < |value| - 1, i;
  }

  lemma Slices(value: Bytes, at: nat, i: nat, n: nat)
    requires at <= i <= n <= |value|
    ensures value[at..n][..|value[at..n]| - |value[i..n]|] == value[at..i]
    ensures i < n ==> value[i..n][0] == value[i] && value[i..n][1..] == value[i + 1..n]
  {
  }

  method WireParses(value: Bytes, maxElements: nat, maxElementBytes: nat) returns (ok: bool)
    ensures ok <==> Parse(value, maxElements, maxElementBytes).Some?
  {
    if |value| < 2 || value[0] != OPEN || value[|value| - 1] != CLOSE {
      return false;
    }
    if |value| == 2 {
      return true;
    }
    hide ParseList;
    var i, elements := 1, 0;
    while i < |value| - 1
      invariant 1 <= i <= |value| - 1 && elements <= maxElements
      invariant Parse(value, maxElements, maxElementBytes).Some? <==>
        i == |value| - 1 || ParseList(value[i..|value| - 1], maxElements - elements, maxElementBytes).Some?
      decreases |value| - i
    {
      elements := elements + 1;
      if elements > maxElements {
        NoneLeft(value[i..|value| - 1], maxElementBytes);
        return false;
      }
      var found, end := NextElement(value, i, maxElements - elements + 1, maxElementBytes);
      if !found {
        return false;
      }
      i := end;
    }
    return true;
  }

  lemma NoneLeft(b: Bytes, maxBytes: nat)
    requires |b| > 0
    ensures ParseList(b, 0, maxBytes).None?
  {
  }

  // The validator accepts exactly the texts of good arrays.
  method ValidateTextArrayWire(value: Bytes, maxElements: nat, maxElementBytes: nat) returns (ok: bool)
    ensures ok <==> exists es :: GoodArray(es, maxElements, maxElementBytes) && value == ArrayText(es)
  {
    ok := WireParses(value, maxElements, maxElementBytes);
    forall es
      ensures Parse(value, maxElements, maxElementBytes) == Some(es) <==>
        GoodArray(es, maxElements, maxElementBytes) && value == ArrayText(es)
    {
      ParseExact(value, maxElements, maxElementBytes, es);
    }
    ghost var r := Parse(value, maxElements, maxElementBytes);
    assert r.Some? ==> r == Some(r.value);
  }

  // ---- Writing and reading back --------------------------------------------------------------------------

  // An element in quotes, with quotes and backslashes escaped.
  function Quoted(s: Bytes): Element {
    Element(true, seq(|s|, i
      requires 0 <= i < |s| => if s[i] == QUOTE || s[i] == BACKSLASH then Escaped(s[i]) else Plain(s[i])))
  }

  function QuotedAll(values: seq<Bytes>): seq<Element> {
    seq(|values|, i requires 0 <= i < |values| => Quoted(values[i]))
  }

  function DecodedAll(es: seq<Element>): seq<Bytes> {
    seq(|es|, i requires 0 <= i < |es| => Decoded(es[i]))
  }

  // Any list of nonempty values within the limits, once quoted, is accepted and read back as it was.
  lemma QuotedRoundTrip(values: seq<Bytes>, maxElements: nat, maxBytes: nat)
    requires |values| <= maxElements && forall i :: 0 <= i < |values| ==> 1 <= |values[i]| <= maxBytes
    ensures var r := Parse(ArrayText(QuotedAll(values)), maxElements, maxBytes);
      r.Some? && DecodedAll(r.value) == values
  {
    var es := QuotedAll(values);
    assert GoodArray(es, maxElements, maxBytes);
    ParseExact(ArrayText(es), maxElements, maxBytes, es);
    forall i | 0 <= i < |values| ensures DecodedAll(es)[i] == values[i] {
      assert Decoded(Quoted(values[i])) == values[i];
    }
  }

  // A spelling of a value byte by byte: as it is, or after a backslash where that is needed or just so.
  predicate Spells(e: Element, value: Bytes) {
    && |e.parts| == |value|
    && (forall i :: 0 <= i < |value| ==> e.parts[i].c == value[i])
    && (forall i :: 0 <= i < |value| && e.parts[i].Plain? ==>
          value[i] != 34 && value[i] != 92 && (!e.quoted ==> value[i] != 44 && value[i] != 123 && value[i] != 125))
  }

  // However a list is spelled, it is accepted and read back, unless something unquoted reads "null".
  lemma SpellingsAreRead(es: seq<Element>, values: seq<Bytes>, maxElements: nat, maxBytes: nat)
    requires |es| == |values| <= maxElements
    requires forall i :: 0 <= i < |es| ==> Spells(es[i], values[i]) && 1 <= |values[i]| <= maxBytes
    requires forall i :: 0 <= i < |es| && !es[i].quoted ==> !IsNull(PartsText(es[i].parts))
    ensures Parse(ArrayText(es), maxElements, maxBytes) == Some(es) && DecodedAll(es) == values
  {
    forall i | 0 <= i < |es| ensures Good(es[i], maxBytes) && Decoded(es[i]) == values[i] {
      assert Spells(es[i], values[i]);
      forall k | 0 <= k < |es[i].parts| ensures PartAllowed(es[i].parts[k], es[i].quoted) {
        assert es[i].parts[k].c == values[i][k];
      }
    }
    ParseExact(ArrayText(es), maxElements, maxBytes, es);
  }

  // ---- Length ------------------------------------------------------------------------------------------------

  function WireBound(maxElements: nat, maxBytes: nat): nat {
    2 + maxElements * (2 * maxBytes + 4)
  }

  lemma {:induction false} PartsLength(ps: seq<Part>)
    ensures |PartsText(ps)| <= 2 * |ps|
  {
    if |ps| > 0 {
      PartsLength(ps[1..]);
    }
  }

  lemma {:induction false} JoinedLength(es: seq<Element>, maxBytes: nat)
    requires forall i :: 0 <= i < |es| ==> Good(es[i], maxBytes)
    ensures |Joined(es)| <= |es| * (2 * maxBytes + 3)
  {
    if |es| > 0 {
      PartsLength(es[0].parts);
      assert |ElementText(es[0])| <= 2 * maxBytes + 2;
      JoinedLength(es[1..], maxBytes);
      assert |es| * (2 * maxBytes + 3) == |es[1..]| * (2 * maxBytes + 3) + (2 * maxBytes + 3);
    }
  }

  // What is accepted is never longer than the bound the cells are checked against.
  lemma AcceptedLength(value: Bytes, maxElements: nat, maxBytes: nat)
    requires Parse(value, maxElements, maxBytes).Some?
    ensures |value| <= WireBound(maxElements, maxBytes)
  {
    var es := Parse(value, maxElements, maxBytes).value;
    ParseExact(value, maxElements, maxBytes, es);
    JoinedLength(es, maxBytes);
    hide Parse, Joined, GoodArray;
    Product(|es|, 2 * maxBytes + 3, maxElements, 2 * maxBytes + 4);
  }

  lemma Product(a: nat, b: nat, c: nat, d: nat)
    requires a <= c && b <= d
    ensures a * b <= c * d
  {
    assert a * b <= c * b <= c * d;
  }
}
