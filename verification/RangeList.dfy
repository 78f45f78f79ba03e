/** Lists of cores or devices such as "0,4-7,12:3" and "0.1,1.0-1.3". */
module RangeList {
  import opened KeyNames

  // ----- the input stream of the C++ library, for unsigned 32-bit numbers

  const U := 0x1_0000_0000

  datatype Char = End | Ch(c: char)

  datatype Stream = Stream(text: string, pos: nat, eof: bool, fail: bool) {
    predicate Valid() { pos <= |text| }
    predicate Good() { !eof && !fail }
  }

  function Peek(s: Stream): (r: (Stream, Char))
    requires s.Valid()
    ensures r.0.Valid() && r.0.text == s.text && r.0.pos == s.pos
  {
    if !s.Good() then (s.(fail := true), End)
    else if s.pos == |s.text| then (s.(eof := true), End)
    else (s, Ch(s.text[s.pos]))
  }

  function Get(s: Stream): (r: (Stream, Char))
    requires s.Valid()
    ensures r.0.Valid() && r.0.text == s.text && r.0.pos >= s.pos
    ensures r.1.Ch? ==> r.0.pos == s.pos + 1 && !r.0.fail
  {
    if !s.Good() then (s.(fail := true), End)
    else if s.pos == |s.text| then (s.(eof := true, fail := true), End)
    else (s.(pos := s.pos + 1), Ch(s.text[s.pos]))
  }

  predicate IsSpace(c: char) { c == ' ' || 9 <= c as int <= 13 }

  function SkipSpace(text: string, pos: nat): (p: nat)
    requires pos <= |text|
    ensures pos <= p <= |text|
    decreases |text| - pos
  {
    if pos < |text| && IsSpace(text[pos]) then SkipSpace(text, pos + 1) else pos
  }

  function DigitsEnd(text: string, pos: nat): (p: nat)
    requires pos <= |text|
    ensures pos <= p <= |text| && Digits(text[pos..p])
    decreases |text| - pos
  {
    if pos < |text| && IsDigit(text[pos]) then
      var p := DigitsEnd(text, pos + 1);
      assert text[pos..p] == [text[pos]] + text[pos + 1..p];
      p
    else pos
  }

  /** `stream >> unsigned`: white space, an optional sign, digits; a minus sign negates modulo 2^32. */
  function ReadNumber(s: Stream): (r: (Stream, nat))
    requires s.Valid()
    ensures r.0.Valid() && r.0.text == s.text && r.0.pos >= s.pos && r.1 < U
  {
    if !s.Good() then (s.(fail := true), 0)
    else
      var p := SkipSpace(s.text, s.pos);
      if p == |s.text| then (s.(pos := p, eof := true, fail := true), 0)
      else
        var q := if s.text[p] == '+' || s.text[p] == '-' then p + 1 else p;
        var e := DigitsEnd(s.text, q);
        var v := Value(s.text[q..e]);
        var bad := e == q || v >= U;
        (s.(pos := e, eof := e == |s.text|, fail := bad),
         if bad then 0 else if s.text[p] == '-' then (U - v) % U else v)
  }

  // ----- elements and intervals

  /** A device "first.second"; a plain number has first 0. */
  datatype Element = Element(first: nat, second: nat)

  /** `stream >> dotted_pair`, or a plain number when `dotted` is false. */
  function ReadElement(s: Stream, dotted: bool): (r: (Stream, Element))
    requires s.Valid()
    ensures r.0.Valid() && r.0.text == s.text && r.0.pos >= s.pos && r.1.second < U
  {
    var (s1, a) := ReadNumber(s);
    if !dotted || s1.eof then (s1, Element(0, a))
    else
      var (s2, c) := Peek(s1);
      if c != Ch('.') then (s2, Element(0, a))
      else
        var (s3, b) := ReadNumber(Get(s2).0);
        (s3, Element(a, b))
  }

  function Plus(e: Element, n: nat): (r: Element)
    ensures r.second < U
  {
    Element(e.first, (e.second + n) % U)
  }

  datatype Interval = Interval(s: Stream, from: Element, to: Element) | IllFormed(reason: string)

  /** Reads "a", "a-b" (inclusive) or "a:length" as the half-open interval [from, to). */
  function ReadInterval(s: Stream, dotted: bool): (r: Interval)
    requires s.Valid()
    ensures r.Interval? ==>
      r.s.Valid() && r.s.text == s.text && r.s.pos >= s.pos && r.from.second < U && r.to.second < U
  {
    var (s1, a) := ReadElement(s, dotted);
    if s1.fail then IllFormed("ill-formed element")
    else
      var (s2, c) := Peek(s1);
      if c == Ch('-') then
        var (s3, b) := ReadElement(Get(s2).0, dotted);
        if s3.fail then IllFormed("ill-formed range") else Interval(s3, a, Plus(b, 1))
      else if c == Ch(':') then
        var (s3, n) := ReadNumber(Get(s2).0);
        if s3.fail then IllFormed("ill-formed length") else Interval(s3, a, Plus(a, n))
      else Interval(s2, a, Plus(a, 1))
  }

  datatype Parsed = Ok(v: seq<Element>) | Error(reason: string)

  /** Counting up from `from` until `to`, modulo 2^32. */
  function Span(node: nat, from: nat, to: nat): (v: seq<Element>)
    requires from < U && to < U
    decreases (to - from) % U
  {
    if from == to then [] else [Element(node, from)] + Span(node, (from + 1) % U, to)
  }

  /** The elements of a list, from the stream's position on. */
  function ParseFrom(s: Stream, dotted: bool): (r: Parsed)
    requires s.Valid()
    decreases |s.text| - s.pos
  {
    match ReadInterval(s, dotted)
    case IllFormed(reason) => Error(reason)
    case Interval(s1, a, b) =>
      if a.first != b.first then Error("not comparable")
      else
        var v := Span(a.first, a.second, b.second);
        var (s2, c) := Get(s1);
        if c == Ch(',') then
          match ParseFrom(s2, dotted)
          case Ok(w) => Ok(v + w)
          case Error(reason) => Error(reason)
        else if !s2.fail then Error("unrecognized trailing characters")
        else Ok(v)
  }

  function Parse(text: string, dotted: bool): (r: Parsed) {
    ParseFrom(Stream(text, 0, false, false), dotted)
  }

  function Prepend(v: seq<Element>, r: Parsed): (q: Parsed) {
    match r
    case Ok(w) => Ok(v + w)
    case Error(reason) => Error(reason)
  }

  /** The counting loop: pushes `first`, `first + 1`, ... until `second`. */
  method PushRange(cores: seq<Element>, node: nat, from: nat, to: nat) returns (r: seq<Element>)
    requires from < U && to < U
    ensures r == cores + Span(node, from, to)
  {
    hide Span;
    var first: nat := from;
    r := cores;
    while first != to
      invariant first < U
      invariant r + Span(node, first, to) == cores + Span(node, from, to)
      decreases (to - first) % U
    {
      SpanNext(r, node, first, to);
      r := r + [Element(node, first)];
      first := (first + 1) % U;
    }
    SpanNone(r, node, to);
  }

  lemma SpanNone(r: seq<Element>, node: nat, to: nat)
    requires to < U
    ensures r + Span(node, to, to) == r
  {}

  lemma SpanEmpty(node: nat)
    ensures Span(node, 0, 0) == []
  {}

  lemma SpanNext(r: seq<Element>, node: nat, from: nat, to: nat)
    requires from < U && to < U && from != to
    ensures r + Span(node, from, to) == r + [Element(node, from)] + Span(node, (from + 1) % U, to)
  {
    var rest := Span(node, (from + 1) % U, to);
    assert r + ([Element(node, from)] + rest) == r + [Element(node, from)] + rest;
  }

  /** The do-while over intervals. */
  method GetVectorFromString(coreString: string, dotted: bool) returns (r: Parsed)
    ensures r == Parse(coreString, dotted)
  {
    hide ReadInterval, Span;
    var stream := Stream(coreString, 0, false, false);
    var cores: seq<Element> := [];
    PrependNothing(Parse(coreString, dotted));
    while true
      invariant stream.Valid() && stream.text == coreString
      invariant Prepend(cores, ParseFrom(stream, dotted)) == Parse(coreString, dotted)
      decreases |stream.text| - stream.pos
    {
      var x := ReadInterval(stream, dotted);
      if x.IllFormed? { return Error(x.reason); }
      if x.from.first != x.to.first { return Error("not comparable"); }
      ghost var v := Span(x.from.first, x.from.second, x.to.second);
      ghost var before := cores;
      cores := PushRange(cores, x.from.first, x.from.second, x.to.second);
      var (s2, c) := Get(x.s);
      if c != Ch(',') {
        if !s2.fail { return Error("unrecognized trailing characters"); }
        return Ok(cores);
      }
      PrependTwice(before, v, ParseFrom(s2, dotted));
      stream := s2;
    }
  }

  lemma PrependNothing(r: Parsed)
    ensures Prepend([], r) == r
  {
    if r.Ok? { assert [] + r.v == r.v; }
  }

  lemma PrependTwice(v: seq<Element>, w: seq<Element>, r: Parsed)
    ensures Prepend(v + w, r) == Prepend(v, Prepend(w, r))
  {
    if r.Ok? { assert v + w + r.v == v + (w + r.v); }
  }

  // ----- printing, and reading back

  /** One printed item of a list. */
  datatype Item =
    | One(a: Element)
    | Through(a: Element, last: nat)     // a-last, inclusive
    | Length(a: Element, n: nat)         // a:n

  function PrintElement(e: Element, dotted: bool): (s: string) {
    if dotted then Dec(e.first) + "." + Dec(e.second) else Dec(e.second)
  }

  function PrintItem(i: Item, dotted: bool): (s: string) {
    match i
    case One(a) => PrintElement(a, dotted)
    case Through(a, last) => PrintElement(a, dotted) + "-" + PrintElement(Element(a.first, last), dotted)
    case Length(a, n) => PrintElement(a, dotted) + ":" + Dec(n)
  }

  function PrintList(items: seq<Item>, dotted: bool): (s: string)
    requires items != []
  {
    if |items| == 1 then PrintItem(items[0], dotted)
    else PrintItem(items[0], dotted) + "," + PrintList(items[1..], dotted)
  }

  /** What an item stands for. */
  function Meaning(i: Item): (v: seq<Element>) {
    match i
    case One(a) => [a]
    case Through(a, last) => Count(a, if last < a.second then 0 else last + 1 - a.second)
    case Length(a, n) => Count(a, n)
  }

  function Count(a: Element, n: nat): (v: seq<Element>)
    ensures |v| == n
  {
    seq(n, k requires 0 <= k < n => Element(a.first, a.second + k))
  }

  /** The range of all 32-bit numbers: its end wraps onto its start. */
  predicate Full(i: Item) { i.Through? && i.a.second == 0 && i.last == U - 1 }

  /** What an item is read as. */
  function Expansion(i: Item): (v: seq<Element>) {
    if Full(i) then [] else Meaning(i)
  }

  function ExpansionOfList(items: seq<Item>): (v: seq<Element>) {
    if items == [] then [] else Expansion(items[0]) + ExpansionOfList(items[1..])
  }

  function MeaningOfList(items: seq<Item>): (v: seq<Element>) {
    if items == [] then [] else Meaning(items[0]) + MeaningOfList(items[1..])
  }

  /** Numbers fit in 32 bits and the range ascends within them. */
  predicate Fits(i: Item, dotted: bool) {
    && i.a.first < U && i.a.second < U && (!dotted ==> i.a.first == 0)
    && match i
       case One(_) => true
       case Through(a, last) => a.second <= last < U
       case Length(a, n) => n < U && a.second + n <= U
  }

  /** `text` has `piece` at `pos`, followed by the end or by a character that is no digit. */
  ghost predicate At(text: string, pos: nat, piece: string) {
    && pos + |piece| <= |text| && text[pos..pos + |piece|] == piece
    && (pos + |piece| < |text| ==> !IsDigit(text[pos + |piece|]))
  }

  lemma {:induction false} DigitsEndAt(text: string, pos: nat, d: string)
    requires Digits(d) && At(text, pos, d)
    ensures DigitsEnd(text, pos) == pos + |d|
    decreases |d|
  {
    if d != [] {
      assert text[pos] == text[pos..pos + |d|][0] == d[0];
      assert text[pos + 1..pos + 1 + |d[1..]|] == d[1..] by {
        assert text[pos + 1..pos + |d|] == text[pos..pos + |d|][1..];
      }
      DigitsEndAt(text, pos + 1, d[1..]);
    }
  }

  /** A printed number is read back exactly, and the stream knows whether it has hit the end. */
  lemma ReadDec(s: Stream, n: nat)
    requires s.Valid() && s.Good() && n < U && At(s.text, s.pos, Dec(n))
    ensures ReadNumber(s) == (Advanced(s, |Dec(n)|), n)
  {
    hide Dec;
    var d := Dec(n);
    assert s.text[s.pos] == s.text[s.pos..s.pos + |d|][0] == d[0];
    assert IsDigit(d[0]);
    assert SkipSpace(s.text, s.pos) == s.pos;
    DigitsEndAt(s.text, s.pos, d);
    ValueOfDec(n);
  }

  /** The stream after reading `n` characters that may be the last ones. */
  function Advanced(s: Stream, n: nat): (r: Stream) { s.(pos := s.pos + n, eof := s.pos + n == |s.text|) }

  lemma AtParts(text: string, pos: nat, a: string, sep: string, b: string)
    requires At(text, pos, a + sep + b) && |sep| == 1 && !IsDigit(sep[0])
    ensures At(text, pos, a) && pos + |a| < |text| && text[pos + |a|] == sep[0]
    ensures At(text, pos + |a| + 1, b)
  {
    var whole := a + sep + b;
    assert text[pos..pos + |whole|] == whole;
    assert text[pos..pos + |a|] == whole[..|a|] == a;
    assert text[pos + |a|] == whole[|a|] == sep[0];
    assert text[pos + |a| + 1..pos + |whole|] == whole[|a| + 1..] == b;
  }

  /** A separator right behind what was just read. */
  lemma AtSeparator(s: Stream, n: nat, c: char)
    requires s.Valid() && s.Good() && s.pos + n < |s.text| && s.text[s.pos + n] == c
    ensures var s1 := Advanced(s, n);
      && s1.Valid() && s1.Good()
      && Peek(s1) == (s1, Ch(c)) && Get(s1).0 == s.(pos := s.pos + n + 1)
  {}

  lemma ReadDottedAt(s: Stream, e: Element)
    requires s.Valid() && s.Good() && e.first < U && e.second < U
    requires At(s.text, s.pos, PrintElement(e, true))
    ensures ReadElement(s, true) == (Advanced(s, |PrintElement(e, true)|), e)
  {
    hide Dec, At, ReadNumber, Peek, Get;
    var a, b := Dec(e.first), Dec(e.second);
    AtParts(s.text, s.pos, a, ".", b);
    assert PrintElement(e, true) == a + "." + b;
    hide PrintElement;
    ReadDec(s, e.first);
    AtSeparator(s, |a|, '.');
    ReadDec(s.(pos := s.pos + |a| + 1), e.second);
  }

  lemma ReadElementAt(s: Stream, e: Element, dotted: bool)
    requires s.Valid() && s.Good() && e.first < U && e.second < U && (!dotted ==> e.first == 0)
    requires At(s.text, s.pos, PrintElement(e, dotted))
    ensures ReadElement(s, dotted) == (Advanced(s, |PrintElement(e, dotted)|), e)
  {
    hide Dec, At, ReadNumber, Peek, Get;
    if dotted { ReadDottedAt(s, e); } else { ReadDec(s, e.second); }
  }

  lemma {:induction false} SpanCount(a: Element, n: nat)
    requires a.second < U && n < U && a.second + n <= U
    ensures Span(a.first, a.second, (a.second + n) % U) == Count(a, n)
    decreases n
  {
    hide Count;
    if n == 0 {
      assert a.second % U == a.second;
      CountStep(a, 0);
    } else if n == 1 {
      CountOne(a);
      SpanOne(a.first, a.second);
    } else {
      hide Span;
      var b, to := Element(a.first, a.second + 1), (a.second + n) % U;
      assert (b.second + (n - 1)) % U == to && to != a.second;
      SpanCount(b, n - 1);
      CountStep(a, n);
      SpanMore(a.first, a.second, to);
    }
  }

  lemma CountStep(a: Element, n: nat)
    ensures Count(a, n) == if n == 0 then [] else [a] + Count(Element(a.first, a.second + 1), n - 1)
  {}

  lemma SpanOne(node: nat, from: nat)
    requires from < U
    ensures Span(node, from, (from + 1) % U) == [Element(node, from)]
  {
    assert Span(node, (from + 1) % U, (from + 1) % U) == [];
  }

  lemma SpanMore(node: nat, from: nat, to: nat)
    requires from + 1 < U && to < U && from != to
    ensures Span(node, from, to) == [Element(node, from)] + Span(node, from + 1, to)
  {}

  /** The character does not continue the item: no digit, and no '-' or ':' behind a single element. */
  predicate Stops(i: Item, c: char) { !IsDigit(c) && (i.One? ==> c != '-' && c != ':') }

  /** The stream stands behind an item: still good, or at the end. */
  ghost predicate Behind(s: Stream, r: Stream, n: nat) {
    && r.text == s.text && r.pos == s.pos + n <= |s.text|
    && (r.pos < |s.text| ==> r.Good()) && (r.pos == |s.text| ==> r.eof)
  }

  lemma ReadItemAt(s: Stream, i: Item, dotted: bool)
    requires s.Valid() && s.Good() && Fits(i, dotted)
    requires At(s.text, s.pos, PrintItem(i, dotted))
    requires var e := s.pos + |PrintItem(i, dotted)|; e < |s.text| ==> Stops(i, s.text[e])
    ensures ReadAs(s, ReadInterval(s, dotted), i, dotted)
  {
    hide Fits, Expansion, ReadInterval, At, ReadAs, PrintElement;
    match i
    case One(a) => ReadOneAt(s, a, dotted);
    case Through(a, last) => ReadThroughAt(s, a, last, dotted);
    case Length(a, n) => ReadLengthAt(s, a, n, dotted);
  }

  /** `r` is the interval of item `i`, and the stream stands behind it. */
  ghost predicate ReadAs(s: Stream, r: Interval, i: Item, dotted: bool) {
    && r.Interval? && r.from.first == r.to.first && r.from.second < U && r.to.second < U
    && Behind(s, r.s, |PrintItem(i, dotted)|)
    && Span(r.from.first, r.from.second, r.to.second) == Expansion(i)
  }

  lemma ReadOneAt(s: Stream, a: Element, dotted: bool)
    requires s.Valid() && s.Good() && Fits(One(a), dotted) && At(s.text, s.pos, PrintElement(a, dotted))
    requires var e := s.pos + |PrintElement(a, dotted)|; e < |s.text| ==> Stops(One(a), s.text[e])
    ensures ReadAs(s, ReadInterval(s, dotted), One(a), dotted)
  {
    hide Dec, At, ReadNumber, ReadElement, PrintElement, Span, Count;
    assert s.pos + |PrintElement(a, dotted)| <= |s.text| by { AtBound(s.text, s.pos, PrintElement(a, dotted)); }
    ReadElementAt(s, a, dotted);
    SpanCount(a, 1);
    CountOne(a);
  }

  lemma AtBound(text: string, pos: nat, piece: string)
    requires At(text, pos, piece)
    ensures pos + |piece| <= |text|
  {}

  lemma RangeBehind(s: Stream, s1: Stream, s3: Stream, s4: Stream, a: Element, b: Element, dotted: bool)
    requires s.Valid() && s1.Valid() && s3.Valid() && !s1.fail && !s4.fail
    requires ReadElement(s, dotted) == (s1, a) && Peek(s1) == (s1, Ch('-')) && Get(s1).0 == s3
    requires ReadElement(s3, dotted) == (s4, b)
    ensures ReadInterval(s, dotted) == Interval(s4, a, Plus(b, 1))
  {
    hide ReadElement, Peek, Get, Plus;
  }

  lemma IntervalThrough(s: Stream, a: Element, last: nat, dotted: bool)
    requires s.Valid() && s.Good() && Fits(Through(a, last), dotted)
    requires At(s.text, s.pos, PrintItem(Through(a, last), dotted))
    ensures ReadInterval(s, dotted) ==
            Interval(Advanced(s, |PrintItem(Through(a, last), dotted)|), a, Plus(Element(a.first, last), 1))
  {
    hide Dec, At, ReadNumber, ReadElement, PrintElement, Peek, Get, Plus, ReadInterval;
    var b := Element(a.first, last);
    var x, y := PrintElement(a, dotted), PrintElement(b, dotted);
    AtParts(s.text, s.pos, x, "-", y);
    ReadElementAt(s, a, dotted);
    AtSeparator(s, |x|, '-');
    var s3 := s.(pos := s.pos + |x| + 1);
    ReadElementAt(s3, b, dotted);
    RangeBehind(s, Advanced(s, |x|), s3, Advanced(s3, |y|), a, b, dotted);
  }

  lemma ReadThroughAt(s: Stream, a: Element, last: nat, dotted: bool)
    requires s.Valid() && s.Good() && Fits(Through(a, last), dotted)
    requires At(s.text, s.pos, PrintItem(Through(a, last), dotted))
    ensures ReadAs(s, ReadInterval(s, dotted), Through(a, last), dotted)
  {
    hide At, ReadInterval, PrintItem, Span, Count;
    AtBound(s.text, s.pos, PrintItem(Through(a, last), dotted));
    IntervalThrough(s, a, last, dotted);
    if Full(Through(a, last)) { SpanEmpty(a.first); } else { SpanCount(a, last + 1 - a.second); }
  }

  lemma LengthBehind(s: Stream, s1: Stream, s3: Stream, s4: Stream, a: Element, n: nat, dotted: bool)
    requires s.Valid() && s1.Valid() && s3.Valid() && !s1.fail && !s4.fail
    requires ReadElement(s, dotted) == (s1, a) && Peek(s1) == (s1, Ch(':')) && Get(s1).0 == s3
    requires ReadNumber(s3) == (s4, n)
    ensures ReadInterval(s, dotted) == Interval(s4, a, Plus(a, n))
  {
    hide ReadNumber, ReadElement, Peek, Get, Plus;
  }

  lemma IntervalLength(s: Stream, a: Element, n: nat, dotted: bool)
    requires s.Valid() && s.Good() && Fits(Length(a, n), dotted)
    requires At(s.text, s.pos, PrintItem(Length(a, n), dotted))
    ensures ReadInterval(s, dotted) == Interval(Advanced(s, |PrintItem(Length(a, n), dotted)|), a, Plus(a, n))
  {
    hide *;
    var x, y := PrintElement(a, dotted), Dec(n);
    var s3 := s.(pos := s.pos + |x| + 1);
    LengthParts(s, a, n, dotted);
    ReadElementAt(s, a, dotted);
    AtSeparator(s, |x|, ':');
    ReadDec(s3, n);
    LengthBehind(s, Advanced(s, |x|), s3, Advanced(s3, |y|), a, n, dotted);
  }

  lemma LengthParts(s: Stream, a: Element, n: nat, dotted: bool)
    requires s.Valid() && s.Good() && Fits(Length(a, n), dotted) && At(s.text, s.pos, PrintItem(Length(a, n), dotted))
    ensures a.first < U && a.second < U && n < U && (!dotted ==> a.first == 0)
    ensures var x, y := PrintElement(a, dotted), Dec(n);
      && s.pos + |x| < |s.text| && s.text[s.pos + |x|] == ':' && At(s.text, s.pos, x) && At(s.text, s.pos + |x| + 1, y)
      && Advanced(s, |x|).Valid() && !Advanced(s, |x|).fail
      && s.(pos := s.pos + |x| + 1).Valid() && s.(pos := s.pos + |x| + 1).Good()
      && Advanced(s.(pos := s.pos + |x| + 1), |y|) == Advanced(s, |PrintItem(Length(a, n), dotted)|)
      && !Advanced(s, |PrintItem(Length(a, n), dotted)|).fail
  {
    hide Dec, At, PrintElement;
    AtParts(s.text, s.pos, PrintElement(a, dotted), ":", Dec(n));
  }

  lemma ReadLengthAt(s: Stream, a: Element, n: nat, dotted: bool)
    requires s.Valid() && s.Good() && Fits(Length(a, n), dotted)
    requires At(s.text, s.pos, PrintItem(Length(a, n), dotted))
    ensures ReadAs(s, ReadInterval(s, dotted), Length(a, n), dotted)
  {
    hide At, ReadInterval, PrintItem, Span, Count;
    AtBound(s.text, s.pos, PrintItem(Length(a, n), dotted));
    IntervalLength(s, a, n, dotted);
    SpanCount(a, n);
  }

  lemma CountOne(a: Element)
    ensures Count(a, 1) == [a]
  {
    assert Count(a, 1)[0] == Element(a.first, a.second + 0);
  }

  /** A printed list, with nothing or an unexpected character behind it. */
  lemma {:induction false} ParseItems(s: Stream, items: seq<Item>, tail: string, dotted: bool)
    requires s.Valid() && s.Good() && items != [] && (forall i :: 0 <= i < |items| ==> Fits(items[i], dotted))
    requires s.text[s.pos..] == PrintList(items, dotted) + tail
    requires tail != [] ==> Stops(items[|items| - 1], tail[0]) && tail[0] != ','
    ensures ParseFrom(s, dotted) ==
            if tail == [] then Ok(ExpansionOfList(items)) else Error("unrecognized trailing characters")
    decreases |items|
  {
    hide PrintItem, ReadInterval, Span, Expansion, Fits, ParseFrom, At, ReadAs, Stops;
    var piece := PrintItem(items[0], dotted);
    var rest := if |items| == 1 then tail else "," + (PrintList(items[1..], dotted) + tail);
    ListHead(items, tail, dotted);
    StopsFacts(items[0], if rest == [] then ',' else rest[0]);
    Placed(s, piece, rest);
    ReadItemAt(s, items[0], dotted);
    ParseStep(s, items[0], rest, dotted);
    if |items| == 1 {
      ExpansionLast(items);
    } else {
      var s2 := s.(pos := s.pos + |piece| + 1);
      SkipComma(s, piece, PrintList(items[1..], dotted) + tail);
      ParseItems(s2, items[1..], tail, dotted);
    }
  }

  lemma StopsFacts(i: Item, c: char)
    ensures Stops(i, ',') && (Stops(i, c) ==> !IsDigit(c))
  {}

  lemma ExpansionLast(items: seq<Item>)
    requires |items| == 1
    ensures ExpansionOfList(items) == Expansion(items[0])
  {
    hide Expansion;
    assert ExpansionOfList(items[1..]) == [];
  }

  lemma ListHead(items: seq<Item>, tail: string, dotted: bool)
    requires items != []
    ensures PrintList(items, dotted) + tail ==
            PrintItem(items[0], dotted) + if |items| == 1 then tail else "," + (PrintList(items[1..], dotted) + tail)
  {
    hide PrintItem;
  }

  lemma SkipComma(s: Stream, piece: string, rest: string)
    requires s.Valid() && s.text[s.pos..] == piece + ("," + rest)
    ensures s.pos + |piece| + 1 <= |s.text| && s.text[s.pos + |piece| + 1..] == rest
  {
    assert s.text[s.pos..][|piece| + 1..] == rest;
  }

  /** One turn of the list reader, on an item followed by `rest`. */
  lemma ParseStep(s: Stream, i: Item, rest: string, dotted: bool)
    requires s.Valid() && ReadAs(s, ReadInterval(s, dotted), i, dotted)
    requires s.pos + |PrintItem(i, dotted)| == |s.text| <==> rest == []
    requires rest != [] ==>
      s.pos + |PrintItem(i, dotted)| < |s.text| && s.text[s.pos + |PrintItem(i, dotted)|] == rest[0]
    ensures ParseFrom(s, dotted) ==
            if rest == [] then Ok(Expansion(i))
            else if rest[0] == ',' then
              var t := s.(pos := s.pos + |PrintItem(i, dotted)| + 1, eof := false, fail := false);
              Prepend(Expansion(i), ParseFrom(t, dotted))
            else Error("unrecognized trailing characters")
  {
    hide PrintItem, ReadInterval, Span, Expansion;
  }

  lemma Placed(s: Stream, piece: string, rest: string)
    requires s.Valid() && s.text[s.pos..] == piece + rest && (rest != [] ==> !IsDigit(rest[0]))
    ensures At(s.text, s.pos, piece)
    ensures s.pos + |piece| == |s.text| <==> rest == []
    ensures rest != [] ==> s.text[s.pos + |piece|] == rest[0]
  {
    var t := s.text[s.pos..];
    assert t[..|piece|] == piece;
    assert s.text[s.pos..s.pos + |piece|] == t[..|piece|];
    if rest != [] { assert t[|piece|] == rest[0]; }
  }

  lemma {:induction false} ExpansionIsMeaning(items: seq<Item>)
    ensures |ExpansionOfList(items)| <= |MeaningOfList(items)|
    ensures ExpansionOfList(items) == MeaningOfList(items) <==> forall i :: 0 <= i < |items| ==> !Full(items[i])
  {
    if items != [] {
      ExpansionIsMeaning(items[1..]);
      AllFull(items);
      if Full(items[0]) {
        assert |Meaning(items[0])| == U;
      } else if ExpansionOfList(items) == MeaningOfList(items) {
        SameTail(Meaning(items[0]), ExpansionOfList(items[1..]), MeaningOfList(items[1..]));
      }
    }
  }

  lemma AllFull(items: seq<Item>)
    requires items != []
    ensures (forall i :: 0 <= i < |items| ==> !Full(items[i]))
            <==> !Full(items[0]) && forall i :: 0 <= i < |items[1..]| ==> !Full(items[1..][i])
  {
    hide Full;
    if !Full(items[0]) && forall i :: 0 <= i < |items[1..]| ==> !Full(items[1..][i]) {
      forall i | 0 <= i < |items| ensures !Full(items[i]) { if i > 0 { assert items[i] == items[1..][i - 1]; } }
    }
  }

  lemma SameTail(a: seq<Element>, b: seq<Element>, c: seq<Element>)
    requires a + b == a + c
    ensures b == c
  {
    assert b == (a + b)[|a|..] == (a + c)[|a|..] == c;
  }

  /**
   * Reading a printed list of ascending ranges gives the concatenation of what its items stand for,
   * if and only if none of them is the range of all 32-bit numbers, which is read as nothing.
   */
  lemma RoundTrip(items: seq<Item>, dotted: bool)
    requires items != [] && (forall i :: 0 <= i < |items| ==> Fits(items[i], dotted))
    ensures Parse(PrintList(items, dotted), dotted) == Ok(ExpansionOfList(items))
    ensures Parse(PrintList(items, dotted), dotted) == Ok(MeaningOfList(items))
            <==> forall i :: 0 <= i < |items| ==> !Full(items[i])
  {
    hide ParseFrom, PrintList, Fits, MeaningOfList, ExpansionOfList, Full;
    var text := PrintList(items, dotted);
    assert text[0..] == text + "";
    ParseItems(Stream(text, 0, false, false), items, "", dotted);
    ExpansionIsMeaning(items);
  }

  /** Any character that continues neither the last item nor the list makes the whole list an error. */
  lemma TrailingRejected(items: seq<Item>, tail: string, dotted: bool)
    requires items != [] && (forall i :: 0 <= i < |items| ==> Fits(items[i], dotted))
    requires tail != [] && Stops(items[|items| - 1], tail[0]) && tail[0] != ','
    ensures Parse(PrintList(items, dotted) + tail, dotted).Error?
  {
    hide ParseFrom, PrintList, Fits, ExpansionOfList;
    var text := PrintList(items, dotted) + tail;
    assert text[0..] == text;
    ParseItems(Stream(text, 0, false, false), items, tail, dotted);
  }

  /** The full range of 32-bit numbers is read as the empty list. */
  lemma FullRangeIsEmpty()
    ensures Parse(Dec(0) + "-" + Dec(U - 1), false) == Ok([])
  {
    hide Dec, ParseFrom;
    var items := [Through(Element(0, 0), U - 1)];
    RoundTrip(items, false);
    ExpansionLast(items);
  }
}
