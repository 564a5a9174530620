/** What dropping overlaps does to a whole text: when each candidate is masked whole, that ties in
    the sort do not matter, and the way from a text to its redaction and back. */
module Crossings {
  import opened Bytes
  import opened Common
  import opened Luhn
  import opened Redact
  import opened Spans

  // --- masked whole

  /** `t` starts inside `s` and ends after it. */
  predicate Crosses(s: Span, t: Span) { s.start < t.start < s.end < t.end }

  /** Some candidate holds both. */
  ghost predicate Bridged(c: seq<Span>, s: Span, t: Span) {
    exists u :: u in c && u.start <= s.start && t.end <= u.end
  }

  ghost predicate CrossingsBridged(c: seq<Span>) {
    forall s, t :: s in c && t in c && Crosses(s, t) ==> Bridged(c, s, t)
  }

  ghost predicate AllWithin(kept: seq<Span>, c: seq<Span>) { forall s :: s in c ==> Within(kept, s) }

  /** Of the spans with one start the longest is kept, if any. */
  ghost predicate LongestKept(kept: seq<Span>, c: seq<Span>) {
    forall s, k :: s in c && k in kept && s.start == k.start ==> s.end <= k.end
  }

  lemma {:induction false} KeepsLongest(c: seq<Span>, n: nat)
    requires Sorted(c) && InText(c, n)
    ensures LongestKept(Keep(c), c)
  {
    if c != [] {
      var u, x := c[..|c| - 1], c[|c| - 1];
      WithoutLast(c, n);
      KeepsLongest(u, n);
      KeptCoverStarts(u, n);
      LongestMore(Keep(u), u, x, n);
      hide *;
    }
  }

  lemma WithoutLast(c: seq<Span>, n: nat)
    requires c != [] && Sorted(c) && InText(c, n)
    ensures var u, x := c[..|c| - 1], c[|c| - 1];
            && c == u + [x] && Sorted(u) && InText(u, n) && (forall s :: s in u ==> !Before(x, s))
            && Keep(c) == More(Keep(u), x)
  {
    var u, x := c[..|c| - 1], c[|c| - 1];
    forall s | s in u ensures s in c && !Before(x, s) { SortedBefore(c, s); }
  }

  /** What is kept after one more candidate. */
  function More(kept: seq<Span>, x: Span): seq<Span> {
    if kept != [] && x.start < kept[|kept| - 1].end then kept else kept + [x]
  }

  lemma LongestMore(kept: seq<Span>, u: seq<Span>, x: Span, n: nat)
    requires Covers(kept, u, n) && LongestKept(kept, u) && forall s :: s in u ==> !Before(x, s)
    ensures LongestKept(More(kept, x), u + [x])
  {
    hide Covers, Before, More;
    forall s, k | s in u + [x] && k in More(kept, x) && s.start == k.start ensures s.end <= k.end {
      LongestPair(kept, u, x, n, s, k);
    }
  }

  lemma InMore(kept: seq<Span>, x: Span, k: Span)
    requires k in More(kept, x)
    ensures k in kept || (k == x && (kept == [] || kept[|kept| - 1].end <= x.start))
  {}

  lemma LongestPair(kept: seq<Span>, u: seq<Span>, x: Span, n: nat, s: Span, k: Span)
    requires Covers(kept, u, n) && LongestKept(kept, u) && forall s :: s in u ==> !Before(x, s)
    requires s in u + [x] && k in More(kept, x) && s.start == k.start
    ensures s.end <= k.end
  {
    hide Neat, Before, More;
    InMore(kept, x, k);
    if s in u && k in kept {
      hide Covers;
    } else if s in u {
      assert StartCovered(kept, s);
      StartFree(kept, n, s, x);
    } else if k in kept {
      assert k in u;
      SameStart(x, k);
    }
  }

  lemma SameStart(x: Span, k: Span)
    requires !Before(x, k) && x.start == k.start
    ensures x.end <= k.end
  {}

  lemma SortedBefore(c: seq<Span>, s: Span)
    requires c != [] && Sorted(c) && s in c[..|c| - 1]
    ensures !Before(c[|c| - 1], s)
  {
    var i :| 0 <= i < |c| - 1 && c[i] == s;
  }

  /** A span that begins where or after the kept ones end shares its start with no covered one. */
  lemma StartFree(kept: seq<Span>, n: nat, s: Span, x: Span)
    requires Neat(kept, 0, n) && StartCovered(kept, s) && kept != [] && kept[|kept| - 1].end <= x.start
    ensures s.start < x.start
  {
    var i :| 0 <= i < |kept| && kept[i].start <= s.start < kept[i].end;
    assert i < |kept| - 1 ==> kept[i].end <= kept[|kept| - 1].start;
  }

  /** Every candidate lies in one kept span when all crossings are bridged. */
  lemma {:induction false} BridgedWithin(c: seq<Span>, kept: seq<Span>, n: nat, t: Span)
    requires Covers(kept, c, n) && LongestKept(kept, c) && CrossingsBridged(c) && InText(c, n) && t in c
    ensures Within(kept, t)
    decreases t.start
  {
    var k := CoveringStart(c, kept, n, t);
    hide Covers, LongestKept, CrossingsBridged, InText, Within;
    if t.end <= k.end {
      HeldWithin(kept, k, t);
    } else {
      var u := Bridge(c, k, t);
      BridgedWithin(c, kept, n, u);
      WithinMore(kept, u, t);
    }
  }

  lemma CoveringStart(c: seq<Span>, kept: seq<Span>, n: nat, t: Span) returns (k: Span)
    requires Covers(kept, c, n) && LongestKept(kept, c) && t in c
    ensures k in kept && k in c && k.start <= t.start < k.end && (t.start == k.start ==> t.end <= k.end)
  {
    assert StartCovered(kept, t);
    k :| k in kept && k.start <= t.start < k.end;
    hide Neat, StartCovered;
  }

  lemma Bridge(c: seq<Span>, s: Span, t: Span) returns (u: Span)
    requires CrossingsBridged(c) && s in c && t in c && Crosses(s, t)
    ensures u in c && u.start <= s.start && t.end <= u.end
  {
    assert Bridged(c, s, t);
    u :| u in c && u.start <= s.start && t.end <= u.end;
  }

  /** Two crossing candidates that lie in kept spans lie in the same one. */
  lemma WithinBridges(c: seq<Span>, kept: seq<Span>, n: nat, s: Span, t: Span)
    requires Covers(kept, c, n) && Within(kept, s) && Within(kept, t) && Crosses(s, t)
    ensures Bridged(c, s, t)
  {
    var a :| a in kept && Holds(a, s);
    var b :| b in kept && Holds(b, t);
    assert a in c && Neat(kept, 0, n);
    hide Covers, Neat;
    NeatApart(kept, n, a, b);
  }

  /** Only the start of a candidate is sure to be masked. Each candidate is masked whole, by one
      mask, exactly when any two candidates that cross lie together in a third. */
  lemma MaskedWholeIffCrossingsBridged(c: seq<Span>, n: nat)
    requires InText(c, n)
    ensures AllWithin(Keep(SortSpans(c)), c) <==> CrossingsBridged(c)
  {
    KeptOfSorted(c, n);
    hide *;
    var kept := Keep(SortSpans(c));
    if CrossingsBridged(c) { AllBridgedWithin(c, kept, n); }
    if AllWithin(kept, c) { AllWithinBridges(c, kept, n); }
  }

  lemma KeptOfSorted(c: seq<Span>, n: nat)
    requires InText(c, n)
    ensures Covers(Keep(SortSpans(c)), c, n) && LongestKept(Keep(SortSpans(c)), c)
  {
    var d := SortSpans(c);
    SortSorts(c);
    assert InText(d, n);
    KeptCoverStarts(d, n);
    KeepsLongest(d, n);
    hide Keep, SortSpans, Sorted, InText;
    SameCover(Keep(d), d, c, n);
    hide Covers;
  }

  lemma AllBridgedWithin(c: seq<Span>, kept: seq<Span>, n: nat)
    requires Covers(kept, c, n) && LongestKept(kept, c) && CrossingsBridged(c) && InText(c, n)
    ensures AllWithin(kept, c)
  {
    hide CrossingsBridged, LongestKept, Covers, Within, InText;
    forall s | s in c ensures Within(kept, s) { BridgedWithin(c, kept, n, s); }
  }

  lemma AllWithinBridges(c: seq<Span>, kept: seq<Span>, n: nat)
    requires Covers(kept, c, n) && AllWithin(kept, c)
    ensures CrossingsBridged(c)
  {
    hide Covers, Within, Bridged;
    forall s, t | s in c && t in c && Crosses(s, t) ensures Bridged(c, s, t) { WithinBridges(c, kept, n, s, t); }
  }

  // --- ties

  predicate SamePlace(a: Span, b: Span) { a.start == b.start && a.end == b.end }

  ghost predicate SamePlaces(c: seq<Span>, d: seq<Span>) {
    |c| == |d| && forall i :: 0 <= i < |c| ==> SamePlace(c[i], d[i])
  }

  /** How many spans of any kind have these bounds. */
  ghost function Copies(m: multiset<Span>, start: nat, end: nat): nat {
    m[Span(start, end, Card)] + m[Span(start, end, Sin)] + m[Span(start, end, PostalCode)] + m[Span(start, end, Dob)]
  }

  ghost predicate SameCopies(m: multiset<Span>, k: multiset<Span>) {
    forall start: nat, end: nat :: Copies(m, start, end) == Copies(k, start, end)
  }

  lemma CopiesCount(m: multiset<Span>, s: Span, start: nat, end: nat)
    ensures Copies(m + multiset{s}, start, end)
         == Copies(m, start, end) + if s.start == start && s.end == end then 1 else 0
  {
    match s.kind case Card => case Sin => case PostalCode => case Dob =>
  }

  lemma HasCopy(m: multiset<Span>, s: Span)
    ensures s in m ==> Copies(m, s.start, s.end) > 0
  {
    match s.kind case Card => case Sin => case PostalCode => case Dob =>
  }

  lemma FindsCopy(c: seq<Span>, start: nat, end: nat) returns (s: Span)
    requires Copies(multiset(c), start, end) > 0
    ensures s in c && s.start == start && s.end == end
  {
    s :| s in multiset(c) && s.start == start && s.end == end;
  }

  /** Of two sorted arrangements, the last spans have the same bounds. */
  lemma LastAlike(c: seq<Span>, d: seq<Span>)
    requires Sorted(c) && Sorted(d) && SameCopies(multiset(c), multiset(d)) && c != [] && d != []
    ensures SamePlace(c[|c| - 1], d[|d| - 1])
  {
    var x, y := c[|c| - 1], d[|d| - 1];
    HasCopy(multiset(c), x);
    HasCopy(multiset(d), y);
    hide Copies;
    assert x in multiset(c) && y in multiset(d);
    var y' := FindsCopy(c, y.start, y.end);
    var x' := FindsCopy(d, x.start, x.end);
    LastIsLast(c, y');
    LastIsLast(d, x');
  }

  lemma LastIsLast(c: seq<Span>, s: Span)
    requires Sorted(c) && s in c
    ensures !Before(c[|c| - 1], s)
  {
    var i :| 0 <= i < |c| && c[i] == s;
  }

  lemma {:induction false} SortedAlike(c: seq<Span>, d: seq<Span>)
    requires Sorted(c) && Sorted(d) && SameCopies(multiset(c), multiset(d))
    ensures SamePlaces(c, d)
  {
    if c == [] || d == [] {
      NoneLeft(c, d);
    } else {
      LastAlike(c, d);
      var u, x, v, y := c[..|c| - 1], c[|c| - 1], d[..|d| - 1], d[|d| - 1];
      assert c == u + [x] && d == v + [y];
      assert Sorted(u) && Sorted(v);
      forall start: nat, end: nat ensures Copies(multiset(u), start, end) == Copies(multiset(v), start, end) {
        CopiesCount(multiset(u), x, start, end);
        CopiesCount(multiset(v), y, start, end);
        hide Copies;
        assert Copies(multiset(c), start, end) == Copies(multiset(d), start, end);
      }
      hide Sorted;
      SortedAlike(u, v);
    }
  }

  lemma NoneLeft(c: seq<Span>, d: seq<Span>)
    requires SameCopies(multiset(c), multiset(d)) && (c == [] || d == [])
    ensures c == d == []
  {
    if c != [] { HasCopy(multiset(c), c[0]); assert c[0] in c; }
    if d != [] { HasCopy(multiset(d), d[0]); assert d[0] in d; }
    assert c != [] ==> Copies(multiset(d), c[0].start, c[0].end) > 0;
    assert d != [] ==> Copies(multiset(c), d[0].start, d[0].end) > 0;
  }

  lemma {:induction false} KeepAlike(c: seq<Span>, d: seq<Span>)
    requires SamePlaces(c, d)
    ensures SamePlaces(Keep(c), Keep(d))
  {
    if c != [] {
      assert SamePlaces(c[..|c| - 1], d[..|d| - 1]);
      KeepAlike(c[..|c| - 1], d[..|d| - 1]);
    }
  }

  lemma {:induction false} InsertPermutes(c: seq<Span>, s: Span)
    ensures multiset(InsertSpan(c, s)) == multiset(c) + multiset{s}
  {
    if !(c == [] || !Before(s, c[|c| - 1])) {
      InsertPermutes(c[..|c| - 1], s);
      assert c == c[..|c| - 1] + [c[|c| - 1]];
    }
  }

  lemma {:induction false} SortPermutes(c: seq<Span>)
    ensures multiset(SortSpans(c)) == multiset(c)
  {
    if c != [] {
      SortPermutes(c[..|c| - 1]);
      InsertPermutes(SortSpans(c[..|c| - 1]), c[|c| - 1]);
      assert c == c[..|c| - 1] + [c[|c| - 1]];
    }
  }

  /** Whatever order the sort gives to spans with equal bounds, the same stretches are masked. */
  lemma TiesDoNotMatter(c: seq<Span>, sorted: seq<Span>)
    requires Sorted(sorted) && multiset(sorted) == multiset(c)
    ensures SamePlaces(Keep(sorted), Keep(SortSpans(c)))
  {
    SortSorts(c);
    SortPermutes(c);
    hide SortSpans, Sorted, Keep;
    SortedAlike(sorted, SortSpans(c));
    KeepAlike(sorted, SortSpans(c));
  }

  // --- a whole text

  lemma CoveredInside(kept: seq<Span>, s: Span)
    requires StartCovered(kept, s)
    ensures Inside(kept, s.start)
  {
    var k :| k in kept && k.start <= s.start < k.end;
    var i :| 0 <= i < |kept| && kept[i] == k;
  }

  lemma WithinInside(kept: seq<Span>, s: Span, i: nat)
    requires Within(kept, s) && s.start <= i < s.end
    ensures Inside(kept, i)
  {
    var k :| k in kept && k.start <= s.start && s.end <= k.end;
    var j :| 0 <= j < |kept| && kept[j] == k;
  }

  /** From a text to its redaction and back: what is stored restores the text, the start of every
      candidate is masked, every character of every candidate is when crossings are bridged, and
      the redaction is that of any text that differs only where it is masked. */
  lemma FromTextAndBack(lex: Lexicon, text: string, other: string, postal: seq<Span>, dates: seq<Span>,
                        hasContext: seq<int> -> bool)
    requires InText(postal, |text|) && InText(dates, |text|) && |other| == |text|
    ensures var c := Candidates(lex, text, postal, dates, hasContext);
            var spans := Keep(SortSpans(c));
            && Neat(spans, 0, |text|)
            && Restore(Render(text, spans, 0), spans, Originals(text, spans), 0) == text
            && (forall s :: s in c ==> Inside(spans, s.start))
            && (CrossingsBridged(c) ==> forall s, i: nat :: s in c && s.start <= i < s.end ==> Inside(spans, i))
            && ((forall i :: 0 <= i < |text| && !Inside(spans, i) ==> text[i] == other[i])
                ==> Render(other, spans, 0) == Render(text, spans, 0))
  {
    CandidatesInText(lex, text, postal, dates, hasContext);
    var c := Candidates(lex, text, postal, dates, hasContext);
    var spans := Keep(SortSpans(c));
    KeptOfSorted(c, |text|);
    MaskedWholeIffCrossingsBridged(c, |text|);
    forall s | s in c ensures Inside(spans, s.start) { CoveredInside(spans, s); }
    hide Candidates, SortSpans, Keep, CrossingsBridged, Render, Restore, Originals, Neat, StartCovered;
    if CrossingsBridged(c) {
      forall s, i: nat | s in c && s.start <= i < s.end ensures Inside(spans, i) { WithinInside(spans, s, i); }
    }
    RedactionIsReversibleAndBlind(text, text, spans);
    if forall i :: 0 <= i < |text| && !Inside(spans, i) ==> text[i] == other[i] {
      RedactionIsReversibleAndBlind(text, other, spans);
    }
  }

  // --- a text whose tail stays

  const ASCII := Lexicon(c => 'a' <= c <= 'z' || '0' <= c <= '9', c => c == ' ', w => None)

  /** The year of the date and the number after it are thirteen digits that pass the checksum. */
  const CROSSED := "dob 1/1/90 00000000001"

  const CROSSED_TOKENS := [Token(0, 3), Token(4, 5), Token(6, 7), Token(8, 10), Token(11, 22)]

  const CROSSED_DATES := [Span(4, 10, Dob)]

  /** One word and the gap after it. */
  lemma {:induction false} ScanWord(lex: Lexicon, text: string, i: nat, j: nat, open: Option<nat>)
    requires i < j <= |text| && forall k :: i <= k < j ==> lex.isWord(text[k])
    ensures TokensFrom(lex, text, i, open) == TokensFrom(lex, text, j, Some(open.UnwrapOr(i)))
    decreases j - i
  {
    if i + 1 < j { ScanWord(lex, text, i + 1, j, Some(open.UnwrapOr(i))); }
  }

  lemma WordThenGap(lex: Lexicon, text: string, i: nat, j: nat)
    requires i < j < |text| && (forall k :: i <= k < j ==> lex.isWord(text[k])) && !lex.isWord(text[j])
    ensures TokensFrom(lex, text, i, None) == [Token(i, j)] + TokensFrom(lex, text, j + 1, None)
  {
    ScanWord(lex, text, i, j, None);
  }

  lemma LastWord(lex: Lexicon, text: string, i: nat)
    requires i < |text| && forall k :: i <= k < |text| ==> lex.isWord(text[k])
    ensures TokensFrom(lex, text, i, None) == [Token(i, |text|)]
  {
    ScanWord(lex, text, i, |text|, None);
  }

  lemma CrossedTokens()
    ensures Tokens(ASCII, CROSSED) == CROSSED_TOKENS
  {
    CrossedWords();
    var w, t := ASCII, CROSSED;
    hide TokensFrom, ASCII, CROSSED;
    WordThenGap(w, t, 0, 3);
    WordThenGap(w, t, 4, 5);
    WordThenGap(w, t, 6, 7);
    WordThenGap(w, t, 8, 10);
    LastWord(w, t, 11);
  }

  lemma CrossedWords()
    ensures |CROSSED| == 22
    ensures forall k :: 0 <= k < 22 ==> (ASCII.isWord(CROSSED[k]) <==> k !in {3, 5, 7, 10})
  {
    var t := CROSSED;
    assert t[0] == 'd' && t[1] == 'o' && t[2] == 'b' && t[3] == ' ' && t[4] == '1' && t[5] == '/' && t[6] == '1';
    assert t[7] == '/' && t[8] == '9' && t[9] == '0' && t[10] == ' ' && t[21] == '1';
    assert forall k :: 11 <= k < 21 ==> t[k] == '0';
  }

  const CROSSED_VIEW := View(
    [[], [1], [1], [9, 0], [0, 0, 0, 0, 0, 0, 0, 0, 0, 0, 1]],
    [false, true, false, false, true])

  const CARD_DIGITS: seq<Digit> := [9, 0, 0, 0, 0, 0, 0, 0, 0, 0, 0, 0, 1]

  lemma CrossedWord(i: nat, j: nat, digits: seq<Digit>)
    requires i < j <= 22 && |digits| == j - i && |CROSSED| == 22
    requires forall k :: i <= k < j ==> CROSSED[k] == '0' + digits[k - i] as char
    ensures DigitsOf(ASCII, CROSSED[i..j]) == digits
  {
    hide CROSSED;
    var tok := CROSSED[i..j];
    assert forall k :: 0 <= k < |tok| ==> tok[k] == CROSSED[i + k];
    assert AllDigits(tok);
    assert Figures(tok) == digits;
  }

  lemma CrossedDigits()
    ensures |CROSSED| == 22 && DigitsOf(ASCII, CROSSED[0..3]) == []
    ensures DigitsOf(ASCII, CROSSED[4..5]) == [1] && DigitsOf(ASCII, CROSSED[6..7]) == [1]
    ensures DigitsOf(ASCII, CROSSED[8..10]) == [9, 0]
    ensures DigitsOf(ASCII, CROSSED[11..22]) == [0, 0, 0, 0, 0, 0, 0, 0, 0, 0, 1]
  {
    var t := CROSSED;
    assert t[0] == 'd' && t[4] == '1' && t[6] == '1' && t[8] == '9' && t[9] == '0' && t[21] == '1';
    assert forall k :: 11 <= k < 21 ==> t[k] == '0';
    assert t[0..3][0] == 'd' && 'd' in t[0..3];
    CrossedWord(4, 5, [1]);
    CrossedWord(6, 7, [1]);
    CrossedWord(8, 10, [9, 0]);
    CrossedWord(11, 22, [0, 0, 0, 0, 0, 0, 0, 0, 0, 0, 1]);
  }

  lemma CrossedGaps()
    ensures |CROSSED| == 22
    ensures IsSeparator(ASCII, CROSSED[3..4]) && !IsSeparator(ASCII, CROSSED[5..6])
    ensures !IsSeparator(ASCII, CROSSED[7..8]) && IsSeparator(ASCII, CROSSED[10..11])
  {
    var t := CROSSED;
    assert t[3] == ' ' && t[5] == '/' && t[7] == '/' && t[10] == ' ';
    assert t[5..6][0] == '/' && t[7..8][0] == '/' && '/' in t[5..6] && '/' in t[7..8];
  }

  lemma CrossedSeen()
    ensures Ordered(CROSSED_TOKENS, 0) && forall t :: t in CROSSED_TOKENS ==> t.end <= |CROSSED|
    ensures See(ASCII, CROSSED, CROSSED_TOKENS) == CROSSED_VIEW
  {
    CrossedDigits();
    CrossedGaps();
    hide CROSSED, ASCII, DigitsOf, IsSeparator;
    var v := See(ASCII, CROSSED, CROSSED_TOKENS);
    assert v.digits == CROSSED_VIEW.digits;
    assert v.joined == CROSSED_VIEW.joined;
  }

  lemma {:induction false} ZerosAdd(n: nat, d: Digit)
    ensures Sum(seq(n, i => 0) + [d]) == d
  {
    var ds: seq<Digit> := seq(n, i => 0) + [d];
    if n == 0 {
      assert ds == [d];
    } else {
      assert ds[1..] == seq(n - 1, i => 0) + [d];
      ZerosAdd(n - 1, d);
    }
  }

  lemma CardDigitsValid()
    ensures KindOf(CARD_DIGITS) == Some(Card)
  {
    CardDigitsSum();
    hide CARD_DIGITS, Sum;
  }

  lemma CardDigitsSum()
    ensures |CARD_DIGITS| == 13 && Sum(CARD_DIGITS) == 10
  {
    var ds := CARD_DIGITS;
    assert ds[1..] == seq(11, i => 0) + [1];
    ZerosAdd(11, 1);
    assert Sum(ds) == 9 + Sum(ds[1..]);
  }

  lemma CrossedRuns()
    ensures RunsFrom(CROSSED_VIEW, 0) == [Run(1, 2), Run(2, 3), Run(3, 5)]
  {
    var v := CROSSED_VIEW;
    assert RunEnd(v, 5) == 5;
    assert RunEnd(v, 4) == 5 && RunEnd(v, 3) == 3 && RunEnd(v, 2) == 2;
    assert RunsFrom(v, 5) == [];
    assert RunsFrom(v, 3) == [Run(3, 5)];
    assert RunsFrom(v, 2) == [Run(2, 3)] + [Run(3, 5)];
    assert RunsFrom(v, 1) == [Run(1, 2)] + RunsFrom(v, 2);
  }

  lemma CrossedConcat()
    ensures Concat(CROSSED_VIEW, 1, 2) == [1] && Concat(CROSSED_VIEW, 2, 3) == [1]
    ensures Concat(CROSSED_VIEW, 3, 5) == CARD_DIGITS
  {
    var v := CROSSED_VIEW;
    assert Concat(v, 1, 2) == [] + [1] && Concat(v, 2, 3) == [] + [1];
    assert Concat(v, 3, 4) == [] + [9, 0];
    assert Concat(v, 3, 5) == Concat(v, 3, 4) + v.digits[4];
  }

  lemma CrossedDigitSpans()
    ensures DigitSpans(CROSSED_VIEW, CROSSED_TOKENS) == [Span(8, 22, Card)]
  {
    var v, toks := CROSSED_VIEW, CROSSED_TOKENS;
    CrossedRuns();
    CrossedConcat();
    CardDigitsValid();
    hide CARD_DIGITS, Concat, RunsFrom;
    assert SpanOf(v, toks, Run(1, 2)) == [] && SpanOf(v, toks, Run(2, 3)) == [];
    assert SpanOf(v, toks, Run(3, 5)) == [Span(8, 22, Card)];
    var rs := [Run(1, 2), Run(2, 3), Run(3, 5)];
    assert rs[1..] == [Run(2, 3), Run(3, 5)] && rs[1..][1..] == [Run(3, 5)] && rs[1..][1..][1..] == [];
    assert SpansOf(v, toks, [Run(3, 5)]) == [Span(8, 22, Card)] + [];
    assert SpansOf(v, toks, [Run(2, 3), Run(3, 5)]) == [] + [Span(8, 22, Card)];
    assert SpansOf(v, toks, rs) == [] + [Span(8, 22, Card)];
  }

  /** What the birth keyword is looked for in. */
  lemma CrossedWindow()
    ensures |CROSSED| == 22 && WindowBefore(CROSSED, 4) == Encode("dob ")
  {
    var t := CROSSED;
    assert t[0] == 'd' && t[1] == 'o' && t[2] == 'b' && t[3] == ' ';
    assert t[..4] == "dob ";
    var a := Encode("dob ");
    EncodedLength("dob ");
    assert a[0..] == a;
  }

  lemma {:induction false} EncodedLength(a: string)
    ensures |Encode(a)| <= 4 * |a|
  {
    hide Utf8;
    if a != "" { EncodedLength(a[..|a| - 1]); }
  }

  lemma CrossedCandidates(hasContext: seq<int> -> bool)
    requires hasContext(Encode("dob "))
    ensures InText(CROSSED_DATES, |CROSSED|)
    ensures Candidates(ASCII, CROSSED, [], CROSSED_DATES, hasContext) == [Span(8, 22, Card), Span(4, 10, Dob)]
  {
    CrossedWindow();
    CrossedTokens();
    CrossedSeen();
    CrossedDigitSpans();
    hide CROSSED, ASCII, Tokens, See, DigitSpans, Encode, CROSSED_VIEW, CROSSED_TOKENS;
    var d := CROSSED_DATES;
    assert d[1..] == [];
    assert DobSpans(CROSSED, d, hasContext) == [Span(4, 10, Dob)] + [];
    assert [Span(8, 22, Card)] + [] + [Span(4, 10, Dob)] == [Span(8, 22, Card), Span(4, 10, Dob)];
  }

  lemma CrossedKept()
    ensures Keep(SortSpans([Span(8, 22, Card), Span(4, 10, Dob)])) == [Span(4, 10, Dob)]
  {
    var a, b := Span(8, 22, Card), Span(4, 10, Dob);
    assert [a, b][..1] == [a] && [a][..0] == [] && [b, a][..1] == [b] && [b][..0] == [];
    assert SortSpans([a]) == [] + [a];
    assert InsertSpan([a], b) == [b] + [a];
    assert SortSpans([a, b]) == [b, a];
    assert Keep([b]) == [] + [b];
  }

  /** So a detected number can stay in part: a date of birth is masked, and of the thirteen-digit
      number that begins inside it eleven digits stay in the text. */
  lemma TailOfNumberStays(hasContext: seq<int> -> bool)
    requires hasContext(Encode("dob "))
    ensures InText(CROSSED_DATES, |CROSSED|)
    ensures var c := Candidates(ASCII, CROSSED, [], CROSSED_DATES, hasContext);
            var spans := Keep(SortSpans(c));
            && Span(8, 22, Card) in c && !CrossingsBridged(c) && !AllWithin(spans, c)
            && Neat(spans, 0, |CROSSED|) && Render(CROSSED, spans, 0) == "dob " + Mask(Dob) + " 00000000001"
  {
    hide Candidates, CROSSED, ASCII, SortSpans, Keep, Render, Mask, Encode;
    CrossedCandidates(hasContext);
    CrossedKept();
    CrossedRendered();
    PairCrosses();
    hide CrossingsBridged, AllWithin;
  }

  lemma PairCrosses()
    ensures var c := [Span(8, 22, Card), Span(4, 10, Dob)];
            Span(8, 22, Card) in c && !CrossingsBridged(c) && !AllWithin([Span(4, 10, Dob)], c)
  {
    var c := [Span(8, 22, Card), Span(4, 10, Dob)];
    assert c[0] in c && c[1] in c && Crosses(c[1], c[0]);
    assert !Bridged(c, c[1], c[0]);
    assert !Within([Span(4, 10, Dob)], c[0]);
  }

  lemma CrossedRendered()
    ensures |CROSSED| == 22 && Neat([Span(4, 10, Dob)], 0, 22)
    ensures Render(CROSSED, [Span(4, 10, Dob)], 0) == "dob " + Mask(Dob) + " 00000000001"
  {
    CrossedParts();
    hide CROSSED, Mask;
    var s := [Span(4, 10, Dob)];
    assert s[1..] == [];
  }

  lemma CrossedParts()
    ensures |CROSSED| == 22 && CROSSED[0..4] == "dob " && CROSSED[10..] == " 00000000001"
  {
    var t := CROSSED;
    assert t[0] == 'd' && t[1] == 'o' && t[2] == 'b' && t[3] == ' ';
    assert t[10] == ' ' && t[21] == '1' && forall k :: 11 <= k < 21 ==> t[k] == '0';
  }
}
