/** Which texts are lists of cores or devices, and what they list, without reference to how they are read. */
module RangeGrammar {
  import opened KeyNames
  import opened RangeList

  ghost predicate Blank(c: char) {
    c == ' ' || c == '\t' || c == '\n' || c == '\r' || c == '\U{000B}' || c == '\U{000C}'
  }

  /** Blanks up to `p`, a sign or none up to `q`, digits up to `j`; a minus sign negates modulo 2^32. */
  ghost predicate Spelling(text: string, i: nat, p: nat, q: nat, j: nat, n: nat) {
    && i <= p <= q < j <= |text|
    && (forall x :: i <= x < p ==> Blank(text[x]))
    && (q == p || (q == p + 1 && (text[p] == '+' || text[p] == '-')))
    && Digits(text[q..j]) && Value(text[q..j]) < 0x1_0000_0000
    && n == if text[p] == '-' then (0x1_0000_0000 - Value(text[q..j])) % 0x1_0000_0000 else Value(text[q..j])
  }

  ghost predicate NumberAt(text: string, i: nat, j: nat, n: nat) {
    exists p: nat, q: nat :: Spelling(text, i, p, q, j, n)
  }

  ghost predicate PairAt(text: string, i: nat, k: nat, j: nat, e: Element) {
    && i <= k < j <= |text| && text[k] == '.'
    && NumberAt(text, i, k, e.first) && NumberAt(text, k + 1, j, e.second)
  }

  /** A number, or, for devices, also two with a dot between them. */
  ghost predicate ElementAt(text: string, i: nat, j: nat, dotted: bool, e: Element) {
    || (e.first == 0 && NumberAt(text, i, j, e.second))
    || (dotted && exists k: nat :: PairAt(text, i, k, j, e))
  }

  /** The element `n` further on. */
  ghost function Later(e: Element, n: nat): (r: Element) { Element(e.first, (e.second + n) % 0x1_0000_0000) }

  ghost predicate RangeAt(text: string, i: nat, k: nat, j: nat, dotted: bool, a: Element, last: Element) {
    && i <= k < j <= |text| && text[k] == '-'
    && ElementAt(text, i, k, dotted, a) && ElementAt(text, k + 1, j, dotted, last)
  }

  ghost predicate LengthAt(text: string, i: nat, k: nat, j: nat, dotted: bool, a: Element, n: nat) {
    && i <= k < j <= |text| && text[k] == ':'
    && ElementAt(text, i, k, dotted, a) && NumberAt(text, k + 1, j, n)
  }

  /** One element, a first and a last one, or a first one and a length; `b` is the end, not included. */
  ghost predicate ItemAt(text: string, i: nat, j: nat, dotted: bool, a: Element, b: Element) {
    || (ElementAt(text, i, j, dotted, a) && b == Later(a, 1))
    || (exists k: nat, last :: RangeAt(text, i, k, j, dotted, a, last) && b == Later(last, 1))
    || (exists k: nat, n: nat :: LengthAt(text, i, k, j, dotted, a, n) && b == Later(a, n))
  }

  /** Counting from `a` until `b`, modulo 2^32. */
  ghost function Counted(a: Element, b: Element): (v: seq<Element>) {
    seq((b.second - a.second) % 0x1_0000_0000, k requires 0 <= k => Later(a, k))
  }

  /** From position `i` on, the text is items with commas between them; both ends of each are on one node. */
  ghost predicate ListAt(text: string, i: nat, dotted: bool, v: seq<Element>)
    requires i <= |text|
    decreases |text| - i
  {
    exists j: nat, a, b ::
      && i <= j <= |text| && ItemAt(text, i, j, dotted, a, b) && a.first == b.first
      && if j == |text| then v == Counted(a, b)
         else text[j] == ',' && exists w :: ListAt(text, j + 1, dotted, w) && v == Counted(a, b) + w
  }

  // ----- numbers

  lemma BlankIs(c: char)
    ensures IsSpace(c) <==> Blank(c)
  {}

  lemma {:induction false} SkipSpaceTo(text: string, i: nat, p: nat)
    requires i <= p < |text| && (forall x :: i <= x < p ==> Blank(text[x])) && !Blank(text[p])
    ensures SkipSpace(text, i) == p
    decreases p - i
  {
    BlankIs(text[i]);
    if i < p { SkipSpaceTo(text, i + 1, p); }
  }

  lemma {:induction false} SkipSpaceBlanks(text: string, i: nat)
    requires i <= |text|
    ensures var p := SkipSpace(text, i); (forall x :: i <= x < p ==> Blank(text[x]))
    decreases |text| - i
  {
    if i < |text| && IsSpace(text[i]) {
      BlankIs(text[i]);
      SkipSpaceBlanks(text, i + 1);
    }
  }

  lemma {:induction false} DigitsEndStops(text: string, i: nat)
    requires i <= |text|
    ensures var e := DigitsEnd(text, i); e < |text| ==> !IsDigit(text[e])
    decreases |text| - i
  {
    if i < |text| && IsDigit(text[i]) { DigitsEndStops(text, i + 1); }
  }

  lemma ReadsSpelling(s: Stream, p: nat, q: nat, j: nat, n: nat)
    requires s.Valid() && s.Good() && Spelling(s.text, s.pos, p, q, j, n) && (j < |s.text| ==> !IsDigit(s.text[j]))
    ensures ReadNumber(s) == (Advanced(s, j - s.pos), n)
  {
    hide Blank;
    var d := s.text[q..j];
    assert s.text[q] == d[0];
    NotBlank(s.text[p]);
    SkipSpaceTo(s.text, s.pos, p);
    DigitsEndAt(s.text, q, d);
  }

  lemma NotBlank(c: char)
    requires c == '+' || c == '-' || IsDigit(c)
    ensures !Blank(c)
  {}

  lemma ReadIsSpelling(s: Stream)
    requires s.Valid() && !ReadNumber(s).0.fail
    ensures var (r, n) := ReadNumber(s);
      && s.Good() && r == Advanced(s, r.pos - s.pos)
      && NumberAt(s.text, s.pos, r.pos, n) && (r.pos < |s.text| ==> !IsDigit(s.text[r.pos]))
  {
    hide Blank, Value;
    var p := SkipSpace(s.text, s.pos);
    SkipSpaceBlanks(s.text, s.pos);
    var q := if s.text[p] == '+' || s.text[p] == '-' then p + 1 else p;
    DigitsEndStops(s.text, q);
    assert Spelling(s.text, s.pos, p, q, ReadNumber(s).0.pos, ReadNumber(s).1);
  }

  lemma ReadsNumber(s: Stream, j: nat, n: nat)
    requires s.Valid() && s.Good() && NumberAt(s.text, s.pos, j, n) && (j < |s.text| ==> !IsDigit(s.text[j]))
    ensures s.pos < j <= |s.text| && ReadNumber(s) == (Advanced(s, j - s.pos), n)
  {
    hide ReadNumber;
    var p: nat, q: nat :| Spelling(s.text, s.pos, p, q, j, n);
    ReadsSpelling(s, p, q, j, n);
  }

  // ----- elements

  /** The end, or a character that separates elements. */
  ghost predicate Separated(text: string, j: nat) {
    j < |text| ==> text[j] == '-' || text[j] == ':' || text[j] == ','
  }

  lemma ReadsElement(s: Stream, j: nat, dotted: bool, e: Element)
    requires s.Valid() && s.Good() && ElementAt(s.text, s.pos, j, dotted, e) && Separated(s.text, j)
    ensures s.pos < j <= |s.text| && ReadElement(s, dotted) == (Advanced(s, j - s.pos), e)
  {
    hide ReadNumber, NumberAt;
    if e.first == 0 && NumberAt(s.text, s.pos, j, e.second) {
      ReadsNumber(s, j, e.second);
    } else {
      var k: nat :| PairAt(s.text, s.pos, k, j, e);
      ReadsNumber(s, k, e.first);
      AtSeparator(s, k - s.pos, '.');
      ReadsNumber(s.(pos := k + 1), j, e.second);
    }
  }

  lemma ReadIsElement(s: Stream, dotted: bool)
    requires s.Valid() && !ReadElement(s, dotted).0.fail
    ensures var (r, e) := ReadElement(s, dotted);
      && s.Good() && s.pos <= r.pos && r == Advanced(s, r.pos - s.pos) && ElementAt(s.text, s.pos, r.pos, dotted, e)
  {
    hide ReadNumber, NumberAt;
    var (s1, a) := ReadNumber(s);
    ReadIsSpelling(s);
    if dotted && !s1.eof && Peek(s1).1 == Ch('.') {
      var s2 := Get(s1).0;
      ReadIsSpelling(s2);
      var (s3, b) := ReadNumber(s2);
      assert PairAt(s.text, s.pos, s1.pos, s3.pos, Element(a, b));
    }
  }

  // ----- items

  lemma LaterIsPlus(e: Element, n: nat)
    ensures Plus(e, n) == Later(e, n)
  {}

  /** Read as [a, b), and the stream stands behind it. */
  ghost predicate ReadItem(s: Stream, r: Interval, j: nat, a: Element, b: Element) {
    && r.Interval? && r.from == a && r.to == b && j >= s.pos && Behind(s, r.s, j - s.pos)
  }

  lemma ReadsItem(s: Stream, j: nat, dotted: bool, a: Element, b: Element)
    requires s.Valid() && s.Good() && ItemAt(s.text, s.pos, j, dotted, a, b) && (j < |s.text| ==> s.text[j] == ',')
    ensures ReadItem(s, ReadInterval(s, dotted), j, a, b)
  {
    hide ReadElement, ReadNumber, ElementAt, NumberAt, Plus, Later, ReadInterval;
    if ElementAt(s.text, s.pos, j, dotted, a) && b == Later(a, 1) {
      ReadsOne(s, j, dotted, a);
    } else if k: nat, last :| RangeAt(s.text, s.pos, k, j, dotted, a, last) && b == Later(last, 1) {
      ReadsRange(s, k, j, dotted, a, last);
    } else {
      var k: nat, n: nat :| LengthAt(s.text, s.pos, k, j, dotted, a, n) && b == Later(a, n);
      ReadsLength(s, k, j, dotted, a, n);
    }
  }

  lemma ReadsOne(s: Stream, j: nat, dotted: bool, a: Element)
    requires s.Valid() && s.Good() && ElementAt(s.text, s.pos, j, dotted, a) && (j < |s.text| ==> s.text[j] == ',')
    ensures ReadItem(s, ReadInterval(s, dotted), j, a, Later(a, 1))
  {
    hide ReadElement, ReadNumber, ElementAt, Later, Plus;
    ReadsElement(s, j, dotted, a);
    LaterIsPlus(a, 1);
  }

  lemma ReadsRange(s: Stream, k: nat, j: nat, dotted: bool, a: Element, last: Element)
    requires s.Valid() && s.Good() && RangeAt(s.text, s.pos, k, j, dotted, a, last)
    requires j < |s.text| ==> s.text[j] == ','
    ensures ReadItem(s, ReadInterval(s, dotted), j, a, Later(last, 1))
  {
    hide ReadElement, ReadInterval, ElementAt, Later, Plus;
    ReadsElement(s, k, dotted, a);
    AtSeparator(s, k - s.pos, '-');
    var s3 := s.(pos := k + 1);
    ReadsElement(s3, j, dotted, last);
    RangeBehind(s, Advanced(s, k - s.pos), s3, Advanced(s3, j - k - 1), a, last, dotted);
    LaterIsPlus(last, 1);
  }

  lemma ReadsLength(s: Stream, k: nat, j: nat, dotted: bool, a: Element, n: nat)
    requires s.Valid() && s.Good() && LengthAt(s.text, s.pos, k, j, dotted, a, n)
    requires j < |s.text| ==> s.text[j] == ','
    ensures ReadItem(s, ReadInterval(s, dotted), j, a, Later(a, n))
  {
    hide ReadElement, ReadNumber, ReadInterval, ElementAt, NumberAt, Later, Plus;
    ReadsElement(s, k, dotted, a);
    AtSeparator(s, k - s.pos, ':');
    var s3 := s.(pos := k + 1);
    ReadsNumber(s3, j, n);
    LengthBehind(s, Advanced(s, k - s.pos), s3, Advanced(s3, j - k - 1), a, n, dotted);
    LaterIsPlus(a, n);
  }

  lemma ReadIsItem(s: Stream, dotted: bool)
    requires s.Valid() && ReadInterval(s, dotted).Interval?
    ensures var r := ReadInterval(s, dotted);
      && s.Good() && s.pos <= r.s.pos && Behind(s, r.s, r.s.pos - s.pos)
      && ItemAt(s.text, s.pos, r.s.pos, dotted, r.from, r.to)
  {
    hide ReadElement, ReadNumber, ElementAt, NumberAt, Plus, Later;
    var r := ReadInterval(s, dotted);
    var (s1, a) := ReadElement(s, dotted);
    ReadIsElement(s, dotted);
    var c := Peek(s1).1;
    if c == Ch('-') {
      var s2 := Get(s1).0;
      ReadIsElement(s2, dotted);
      var last := ReadElement(s2, dotted).1;
      LaterIsPlus(last, 1);
      assert RangeAt(s.text, s.pos, s1.pos, r.s.pos, dotted, a, last);
    } else if c == Ch(':') {
      var s2 := Get(s1).0;
      ReadIsSpelling(s2);
      var n := ReadNumber(s2).1;
      LaterIsPlus(a, n);
      assert LengthAt(s.text, s.pos, s1.pos, r.s.pos, dotted, a, n);
    } else {
      LaterIsPlus(a, 1);
    }
  }

  // ----- lists

  lemma {:induction false} SpanIsCounted(a: Element, b: Element)
    requires a.second < U && b.second < U
    ensures Span(a.first, a.second, b.second) == Counted(a, b)
    decreases (b.second - a.second) % U
  {
    if a.second != b.second {
      var a' := Later(a, 1);
      SpanIsCounted(a', b);
      CountedMore(a, b);
    }
  }

  lemma CountedMore(a: Element, b: Element)
    requires a.second < U && b.second < U && a.second != b.second
    ensures Counted(a, b) == [a] + Counted(Later(a, 1), b)
  {
    var n := (b.second - a.second) % U;
    var rest := Counted(Later(a, 1), b);
    assert |rest| == n - 1;
    forall k: nat | k < n - 1 ensures rest[k] == Later(a, k + 1) { LaterTwice(a, k); }
  }

  lemma LaterTwice(a: Element, k: nat)
    requires a.second < U
    ensures Later(Later(a, 1), k) == Later(a, k + 1)
  {
    if a.second + 1 == U { assert (k as int + U) % U == k % U; }
  }

  lemma HeadReads(s: Stream, j: nat, dotted: bool, a: Element, b: Element)
    requires s.Valid() && s.Good() && s.pos <= j <= |s.text| && ItemAt(s.text, s.pos, j, dotted, a, b)
    requires a.first == b.first && (j < |s.text| ==> s.text[j] == ',')
    ensures ParseFrom(s, dotted) ==
            if j == |s.text| then Ok(Counted(a, b))
            else Prepend(Counted(a, b), ParseFrom(Stream(s.text, j + 1, false, false), dotted))
  {
    hide ReadInterval, ItemAt, Span, Counted;
    ReadsItem(s, j, dotted, a, b);
    assert ReadInterval(s, dotted).from.second < U;
    SpanIsCounted(a, b);
  }

  /** The first item of a list, what it counts, and the rest. */
  lemma ListHead(text: string, i: nat, dotted: bool, v: seq<Element>)
    returns (j: nat, a: Element, b: Element, w: seq<Element>)
    requires i <= |text| && ListAt(text, i, dotted, v)
    ensures i <= j <= |text| && ItemAt(text, i, j, dotted, a, b) && a.first == b.first
    ensures if j == |text| then v == Counted(a, b)
            else text[j] == ',' && ListAt(text, j + 1, dotted, w) && v == Counted(a, b) + w
  {
    hide ItemAt, Counted;
    j, a, b :|
      && i <= j <= |text| && ItemAt(text, i, j, dotted, a, b) && a.first == b.first
      && if j == |text| then v == Counted(a, b)
         else text[j] == ',' && exists w :: ListAt(text, j + 1, dotted, w) && v == Counted(a, b) + w;
    if j < |text| {
      w :| ListAt(text, j + 1, dotted, w) && v == Counted(a, b) + w;
    } else {
      w := [];
    }
  }

  lemma {:induction false} ListReads(s: Stream, dotted: bool, v: seq<Element>)
    requires s.Valid() && s.Good() && ListAt(s.text, s.pos, dotted, v)
    ensures ParseFrom(s, dotted) == Ok(v)
    decreases |s.text| - s.pos
  {
    hide ItemAt, Counted, ParseFrom, ListAt;
    var j, a, b, w := ListHead(s.text, s.pos, dotted, v);
    HeadReads(s, j, dotted, a, b);
    if j < |s.text| { ListReads(Stream(s.text, j + 1, false, false), dotted, w); }
  }

  lemma {:induction false} ReadIsList(s: Stream, dotted: bool, v: seq<Element>)
    requires s.Valid() && s.Good() && ParseFrom(s, dotted) == Ok(v)
    ensures ListAt(s.text, s.pos, dotted, v)
    decreases |s.text| - s.pos
  {
    hide ReadInterval, ItemAt, Span, Counted;
    var r := ReadInterval(s, dotted);
    ReadIsItem(s, dotted);
    var j, a, b := r.s.pos, r.from, r.to;
    SpanIsCounted(a, b);
    if j < |s.text| {
      var s2 := Stream(s.text, j + 1, false, false);
      assert Get(r.s) == (s2, Ch(','));
      ReadIsList(s2, dotted, ParseFrom(s2, dotted).v);
    }
  }

  /** The reader accepts exactly the lists, and reads them as what they list. */
  lemma ReadsListIff(s: Stream, dotted: bool, v: seq<Element>)
    requires s.Valid() && s.Good()
    ensures ParseFrom(s, dotted) == Ok(v) <==> ListAt(s.text, s.pos, dotted, v)
  {
    hide ParseFrom, ListAt;
    if ParseFrom(s, dotted) == Ok(v) { ReadIsList(s, dotted, v); }
    if ListAt(s.text, s.pos, dotted, v) { ListReads(s, dotted, v); }
  }

  /**
   * For every text: the result is a vector if and only if the text is a list of it, and an error if and
   * only if the text is no list at all.
   */
  lemma ParseIff(text: string, dotted: bool)
    ensures forall v :: Parse(text, dotted) == Ok(v) <==> ListAt(text, 0, dotted, v)
    ensures Parse(text, dotted).Error? <==> forall v :: !ListAt(text, 0, dotted, v)
  {
    hide ParseFrom, ListAt;
    var s := Stream(text, 0, false, false);
    forall v ensures Parse(text, dotted) == Ok(v) <==> ListAt(text, 0, dotted, v) { ReadsListIff(s, dotted, v); }
  }

  lemma BlankNumber(s: Stream)
    requires s.Valid() && s.Good() && s.pos < |s.text| && Blank(s.text[s.pos])
    ensures ReadNumber(s) == ReadNumber(s.(pos := s.pos + 1))
  {
    BlankIs(s.text[s.pos]);
  }

  lemma BlankElement(s: Stream, dotted: bool)
    requires s.Valid() && s.Good() && s.pos < |s.text| && Blank(s.text[s.pos])
    ensures ReadElement(s, dotted) == ReadElement(s.(pos := s.pos + 1), dotted)
  {
    hide ReadNumber, Blank, Peek, Get;
    BlankNumber(s);
  }

  lemma BlankItem(s: Stream, dotted: bool)
    requires s.Valid() && s.Good() && s.pos < |s.text| && Blank(s.text[s.pos])
    ensures ReadInterval(s, dotted) == ReadInterval(s.(pos := s.pos + 1), dotted)
  {
    hide ReadElement, ReadNumber, Blank, Peek, Get, Plus;
    BlankElement(s, dotted);
  }

  /** Blanks where a number is expected, in whatever place, are passed over. */
  lemma BlankSkipped(s: Stream, dotted: bool)
    requires s.Valid() && s.Good() && s.pos < |s.text| && Blank(s.text[s.pos])
    ensures var t := s.(pos := s.pos + 1);
      && ReadNumber(s) == ReadNumber(t) && ReadElement(s, dotted) == ReadElement(t, dotted)
      && ReadInterval(s, dotted) == ReadInterval(t, dotted) && ParseFrom(s, dotted) == ParseFrom(t, dotted)
  {
    hide ReadInterval, ReadElement, ReadNumber, Blank, Get, Span;
    BlankNumber(s);
    BlankElement(s, dotted);
    BlankItem(s, dotted);
  }
}
