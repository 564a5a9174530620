/** PII detection and redaction at emission. Character classes and number words are parameters,
    as are the matches of the postal-code and date expressions. Positions count characters, the
    window before a date counts bytes. */
module Redact {
  import opened Bytes
  import opened Common
  import opened Spans
  import opened Luhn

  /** `isWord`: letter or digit; `wordDigit`: the digit a spoken number word stands for. */
  datatype Lexicon = Lexicon(isWord: char -> bool, isSpace: char -> bool, wordDigit: string -> Option<Digit>)

  // --- tokens

  datatype Token = Token(start: nat, end: nat)

  /** The tokens that begin before position `i` of a scan whose open token began at `open`. */
  function TokensFrom(lex: Lexicon, text: string, i: nat, open: Option<nat>): seq<Token>
    requires i <= |text|
    decreases |text| - i
  {
    if i == |text| then if open.Some? then [Token(open.value, i)] else []
    else if lex.isWord(text[i]) then TokensFrom(lex, text, i + 1, Some(open.UnwrapOr(i)))
    else (if open.Some? then [Token(open.value, i)] else []) + TokensFrom(lex, text, i + 1, None)
  }

  function Tokens(lex: Lexicon, text: string): seq<Token> { TokensFrom(lex, text, 0, None) }

  ghost predicate WordRun(lex: Lexicon, text: string, a: int, b: int) {
    0 <= a <= b <= |text| && forall k :: a <= k < b ==> lex.isWord(text[k])
  }

  /** A longest stretch of letters and digits. */
  ghost predicate IsToken(lex: Lexicon, text: string, t: Token) {
    && t.start < t.end && WordRun(lex, text, t.start, t.end)
    && (t.start == 0 || !lex.isWord(text[t.start - 1]))
    && (t.end == |text| || !lex.isWord(text[t.end]))
  }

  ghost predicate ScanState(lex: Lexicon, text: string, i: nat, open: Option<nat>) {
    && i <= |text|
    && (open.Some? ==>
          && open.value < i && WordRun(lex, text, open.value, i)
          && (open.value == 0 || !lex.isWord(text[open.value - 1])))
    && (open.None? ==> i == 0 || !lex.isWord(text[i - 1]))
  }

  ghost predicate Ordered(ts: seq<Token>, from: nat) {
    && (forall k :: 0 <= k < |ts| ==> from <= ts[k].start < ts[k].end)
    && forall j, k :: 0 <= j < k < |ts| ==> ts[j].end < ts[k].start
  }

  /** The scan yields exactly the longest stretches, in order. */
  lemma {:induction false} TokensFromAreRuns(lex: Lexicon, text: string, i: nat, open: Option<nat>)
    requires ScanState(lex, text, i, open)
    ensures var ts := TokensFrom(lex, text, i, open);
            && Ordered(ts, open.UnwrapOr(i))
            && (forall t :: t in ts <==> IsToken(lex, text, t) && t.start >= open.UnwrapOr(i))
    decreases |text| - i
  {
    var from := open.UnwrapOr(i);
    if i == |text| {
      forall t ensures t in TokensFrom(lex, text, i, open) <==> IsToken(lex, text, t) && t.start >= from {
        TokenAtEnd(lex, text, open, t);
      }
    } else if lex.isWord(text[i]) {
      assert ScanState(lex, text, i + 1, Some(from));
      hide ScanState, IsToken, Ordered;
      TokensFromAreRuns(lex, text, i + 1, Some(from));
    } else {
      assert ScanState(lex, text, i + 1, None);
      TokensFromAreRuns(lex, text, i + 1, None);
      var rest := TokensFrom(lex, text, i + 1, None);
      forall t ensures t in TokensFrom(lex, text, i, open) <==> IsToken(lex, text, t) && t.start >= from {
        TokenAtGap(lex, text, i, open, t);
      }
      OrderedAtGap(i, open, rest) by { assert open.Some? ==> open.value < i; }
    }
  }

  lemma OrderedAtGap(i: nat, open: Option<nat>, rest: seq<Token>)
    requires Ordered(rest, i + 1) && (open.Some? ==> open.value < i)
    ensures Ordered((if open.Some? then [Token(open.value, i)] else []) + rest, open.UnwrapOr(i))
  {}

  lemma TokenAtEnd(lex: Lexicon, text: string, open: Option<nat>, t: Token)
    requires ScanState(lex, text, |text|, open)
    ensures IsToken(lex, text, t) && t.start >= open.UnwrapOr(|text|) <==> open.Some? && t == Token(open.value, |text|)
  {}

  /** At a character that is no letter or digit, a token ends there or starts later. */
  lemma TokenAtGap(lex: Lexicon, text: string, i: nat, open: Option<nat>, t: Token)
    requires ScanState(lex, text, i, open) && i < |text| && !lex.isWord(text[i])
    ensures IsToken(lex, text, t) && t.start >= open.UnwrapOr(i)
       <==> (open.Some? && t == Token(open.value, i)) || (IsToken(lex, text, t) && t.start >= i + 1)
  {}

  /** The scan as the loop it is. */
  method Tokenize(lex: Lexicon, text: string) returns (toks: seq<Token>)
    ensures toks == Tokens(lex, text)
    ensures Ordered(toks, 0) && forall t :: t in toks <==> IsToken(lex, text, t)
  {
    TokensFromAreRuns(lex, text, 0, None);
    toks := [];
    var start: Option<nat> := None;
    for i := 0 to |text|
      invariant toks + TokensFrom(lex, text, i, start) == Tokens(lex, text)
    {
      if lex.isWord(text[i]) {
        if start.None? {
          start := Some(i);
        }
        continue;
      }
      if start.Some? {
        toks := toks + [Token(start.value, i)];
        start := None;
      }
    }
    if start.Some? {
      toks := toks + [Token(start.value, |text|)];
    }
  }

  // --- digit runs

  predicate AllDigits(s: string) { forall c :: c in s ==> '0' <= c <= '9' }

  function Figure(c: char): Digit
    requires '0' <= c <= '9'
  {
    c as int - '0' as int
  }

  function Figures(s: string): (ds: seq<Digit>)
    requires AllDigits(s)
    ensures |ds| == |s|
  {
    seq(|s|, i requires 0 <= i < |s| => assert s[i] in s; Figure(s[i]))
  }

  /** What a token contributes to a run: the digit of a number word, its own digits, or nothing. */
  function DigitsOf(lex: Lexicon, tok: string): seq<Digit> {
    if lex.wordDigit(tok).Some? then [lex.wordDigit(tok).value]
    else if AllDigits(tok) then Figures(tok) else []
  }

  predicate IsSeparator(lex: Lexicon, gap: string) {
    |gap| <= 3 && forall c :: c in gap ==> lex.isSpace(c) || c in {'-', '.', ','}
  }

  /** The text as the run detector sees it: digits per token, and which neighbours belong together. */
  datatype View = View(digits: seq<seq<Digit>>, joined: seq<bool>)

  ghost predicate Shaped(v: View) { |v.digits| == |v.joined| }

  /** `joined[k]`: tokens `k - 1` and `k` have only a separator between them. */
  function See(lex: Lexicon, text: string, toks: seq<Token>): (v: View)
    requires Ordered(toks, 0) && forall t :: t in toks ==> t.end <= |text|
    ensures Shaped(v)
  {
    View(seq(|toks|, k requires 0 <= k < |toks| => DigitsOf(lex, text[toks[k].start..toks[k].end])),
         seq(|toks|, k requires 0 <= k < |toks| => k > 0 && IsSeparator(lex, text[toks[k - 1].end..toks[k].start])))
  }

  /** The end of the run that includes token `j - 1`. */
  function RunEnd(v: View, j: nat): (e: nat)
    requires Shaped(v) && j <= |v.digits|
    ensures j <= e <= |v.digits|
    decreases |v.digits| - j
  {
    if j == |v.digits| || v.digits[j] == [] || !v.joined[j] then j else RunEnd(v, j + 1)
  }

  datatype Run = Run(first: nat, past: nat)

  function RunsFrom(v: View, i: nat): seq<Run>
    requires Shaped(v) && i <= |v.digits|
    decreases |v.digits| - i
  {
    if i == |v.digits| then []
    else if v.digits[i] == [] then RunsFrom(v, i + 1)
    else [Run(i, RunEnd(v, i + 1))] + RunsFrom(v, RunEnd(v, i + 1))
  }

  /** Tokens `k - 1` and `k` both contribute digits and are joined. */
  predicate Linked(v: View, k: nat)
    requires Shaped(v) && 0 < k < |v.digits|
  {
    v.digits[k - 1] != [] && v.digits[k] != [] && v.joined[k]
  }

  /** A stretch of tokens that contribute digits and are joined, which neither neighbour extends. */
  ghost predicate MaximalRun(v: View, r: Run)
    requires Shaped(v)
  {
    && r.first < r.past <= |v.digits|
    && (forall k :: r.first <= k < r.past ==> v.digits[k] != [])
    && (forall k :: r.first < k < r.past ==> Linked(v, k))
    && (r.first == 0 || !Linked(v, r.first))
    && (r.past == |v.digits| || !Linked(v, r.past))
  }

  lemma {:induction false} RunEndIsMaximal(v: View, i: nat, j: nat)
    requires Shaped(v) && i < j <= |v.digits|
    requires (forall k :: i <= k < j ==> v.digits[k] != []) && forall k :: i < k < j ==> Linked(v, k)
    ensures var e := RunEnd(v, j);
            && (forall k :: i <= k < e ==> v.digits[k] != []) && (forall k :: i < k < e ==> Linked(v, k))
            && (e == |v.digits| || !Linked(v, e))
    decreases |v.digits| - j
  {
    if j < |v.digits| && v.digits[j] != [] && v.joined[j] {
      assert Linked(v, j);
      RunEndIsMaximal(v, i, j + 1);
    }
  }

  /** The left-to-right grouping finds exactly the maximal runs. */
  lemma {:induction false} RunsAreMaximal(v: View, i: nat)
    requires Shaped(v) && i <= |v.digits| && (i == 0 || i == |v.digits| || !Linked(v, i))
    ensures forall r :: r in RunsFrom(v, i) <==> MaximalRun(v, r) && r.first >= i
    decreases |v.digits| - i
  {
    if i < |v.digits| {
      if v.digits[i] == [] {
        RunsAreMaximal(v, i + 1);
      } else {
        var e := RunEnd(v, i + 1);
        RunEndIsMaximal(v, i, i + 1);
        RunsAreMaximal(v, e);
        assert MaximalRun(v, Run(i, e));
        forall r | MaximalRun(v, r) && i <= r.first < e ensures r == Run(i, e) {
          SameRun(v, Run(i, e), r);
        }
      }
    }
  }

  lemma SameRun(v: View, a: Run, b: Run)
    requires Shaped(v) && MaximalRun(v, a) && MaximalRun(v, b) && a.first <= b.first < a.past
    ensures a == b
  {}

  function Concat(v: View, first: nat, past: nat): seq<Digit>
    requires Shaped(v) && first <= past <= |v.digits|
  {
    if first == past then [] else Concat(v, first, past - 1) + v.digits[past - 1]
  }

  /** 13 to 19 digits are a card and 9 a social insurance number, when the checksum holds. */
  function KindOf(digits: seq<Digit>): Option<Kind> {
    if 13 <= |digits| <= 19 && Valid(digits) then Some(Card)
    else if |digits| == 9 && Valid(digits) then Some(Sin)
    else None
  }

  function SpansOf(v: View, toks: seq<Token>, runs: seq<Run>): seq<Span>
    requires Shaped(v) && |toks| == |v.digits| && forall r :: r in runs ==> r.first < r.past <= |v.digits|
  {
    if runs == [] then []
    else SpanOf(v, toks, runs[0]) + SpansOf(v, toks, runs[1..])
  }

  /** The span of a run, if it is PII. */
  function SpanOf(v: View, toks: seq<Token>, r: Run): seq<Span>
    requires Shaped(v) && |toks| == |v.digits| && r.first < r.past <= |v.digits|
  {
    var kind := KindOf(Concat(v, r.first, r.past));
    if kind.Some? then [Span(toks[r.first].start, toks[r.past - 1].end, kind.value)] else []
  }

  ghost predicate RunSpan(v: View, toks: seq<Token>, r: Run, s: Span)
    requires Shaped(v) && |toks| == |v.digits|
  {
    && MaximalRun(v, r)
    && KindOf(Concat(v, r.first, r.past)) == Some(s.kind)
    && s.start == toks[r.first].start && s.end == toks[r.past - 1].end
  }

  lemma {:induction false} SpansOfRuns(v: View, toks: seq<Token>, runs: seq<Run>)
    requires Shaped(v) && |toks| == |v.digits|
    requires forall r :: r in runs ==> MaximalRun(v, r) && r.first < r.past <= |v.digits|
    ensures forall s :: s in SpansOf(v, toks, runs) <==> exists r :: r in runs && RunSpan(v, toks, r, s)
  {
    if runs != [] {
      assert runs[0] in runs && forall r :: r in runs[1..] ==> r in runs;
      SpansOfRuns(v, toks, runs[1..]);
      hide MaximalRun, KindOf, Concat;
      forall s ensures s in SpansOf(v, toks, runs) <==> exists r :: r in runs && RunSpan(v, toks, r, s) {
        FirstRunSpan(v, toks, runs, s);
        hide RunSpan, SpansOf;
        if r :| r in runs && RunSpan(v, toks, r, s) {
          assert r == runs[0] || r in runs[1..];
        }
      }
    }
  }

  lemma FirstRunSpan(v: View, toks: seq<Token>, runs: seq<Run>, s: Span)
    requires Shaped(v) && |toks| == |v.digits| && runs != []
    requires forall r :: r in runs ==> MaximalRun(v, r) && r.first < r.past <= |v.digits|
    ensures forall r :: r in runs[1..] ==> r in runs
    ensures s in SpansOf(v, toks, runs) <==> RunSpan(v, toks, runs[0], s) || s in SpansOf(v, toks, runs[1..])
  {
    assert runs[0] in runs;
    SpanOfRun(v, toks, runs[0], s);
    hide MaximalRun, SpanOf, RunSpan;
  }

  lemma SpanOfRun(v: View, toks: seq<Token>, r: Run, s: Span)
    requires Shaped(v) && |toks| == |v.digits| && r.first < r.past <= |v.digits| && MaximalRun(v, r)
    ensures s in SpanOf(v, toks, r) <==> RunSpan(v, toks, r, s)
  {
    hide KindOf, Concat;
  }

  lemma RunsAreShort(v: View)
    requires Shaped(v)
    ensures forall r :: r in RunsFrom(v, 0) ==> MaximalRun(v, r) && r.first < r.past <= |v.digits|
  {
    RunsAreMaximal(v, 0);
  }

  function DigitSpans(v: View, toks: seq<Token>): seq<Span>
    requires Shaped(v) && |toks| == |v.digits|
  {
    RunsAreShort(v);
    SpansOf(v, toks, RunsFrom(v, 0))
  }

  /** Digit candidates are exactly the maximal runs, across number words and separators, of 9 or
      13 to 19 digits that pass the checksum; no part of a longer run counts. */
  lemma DigitCandidatesAreMaximalRuns(v: View, toks: seq<Token>, s: Span)
    requires Shaped(v) && |toks| == |v.digits|
    ensures s in DigitSpans(v, toks) <==> exists r :: RunSpan(v, toks, r, s)
  {
    RunsAreMaximal(v, 0);
    SpansOfRuns(v, toks, RunsFrom(v, 0));
    if r :| RunSpan(v, toks, r, s) {
      assert r in RunsFrom(v, 0);
    }
  }

  /** The inner loop: extends the run that starts at token `i`. */
  method ExtendRun(v: View, i: nat) returns (digits: seq<Digit>, j: nat)
    requires Shaped(v) && i < |v.digits|
    ensures j == RunEnd(v, i + 1) && digits == Concat(v, i, j)
  {
    digits, j := v.digits[i], i + 1;
    assert Concat(v, i, i + 1) == [] + v.digits[i];
    while j < |v.digits|
      invariant i < j <= |v.digits|
      invariant RunEnd(v, j) == RunEnd(v, i + 1)
      invariant digits == Concat(v, i, j)
    {
      if v.digits[j] == [] || !v.joined[j] {
        break;
      }
      digits := digits + v.digits[j];
      j := j + 1;
    }
  }

  /** The outer loop over the tokens. */
  method DetectDigitRuns(v: View, toks: seq<Token>) returns (spans: seq<Span>)
    requires Shaped(v) && |toks| == |v.digits|
    ensures spans == DigitSpans(v, toks)
  {
    RunsAreShort(v);
    hide MaximalRun, RunEnd, Concat, KindOf, SpansOf;
    spans := [];
    NoRuns(v, toks);
    var i := 0;
    ghost var done: seq<Run> := [];
    while i < |toks|
      invariant 0 <= i <= |toks|
      invariant done + RunsFrom(v, i) == RunsFrom(v, 0)
      invariant forall r :: r in done ==> r.first < r.past <= |v.digits|
      invariant spans == SpansOf(v, toks, done)
    {
      if v.digits[i] == [] {
        i := i + 1;
        continue;
      }
      var digits, j := ExtendRun(v, i);
      assert done + ([Run(i, j)] + RunsFrom(v, j)) == done + [Run(i, j)] + RunsFrom(v, j);
      SpansOfAppend(v, toks, done, Run(i, j));
      SpansOfSingle(v, toks, Run(i, j));
      done := done + [Run(i, j)];
      var kind := KindOf(digits);
      if kind.Some? {
        spans := spans + [Span(toks[i].start, toks[j - 1].end, kind.value)];
      }
      i := j;
    }
    assert done + [] == done;
  }

  lemma NoRuns(v: View, toks: seq<Token>)
    requires Shaped(v) && |toks| == |v.digits|
    ensures SpansOf(v, toks, []) == []
  {}

  lemma SpansOfSingle(v: View, toks: seq<Token>, r: Run)
    requires Shaped(v) && |toks| == |v.digits| && r.first < r.past <= |v.digits|
    ensures SpansOf(v, toks, [r]) == SpanOf(v, toks, r)
  {
    hide SpanOf;
    assert [r][1..] == [] && SpanOf(v, toks, r) + [] == SpanOf(v, toks, r);
  }

  lemma {:induction false} SpansOfAppend(v: View, toks: seq<Token>, runs: seq<Run>, r: Run)
    requires Shaped(v) && |toks| == |v.digits| && forall x :: x in runs + [r] ==> x.first < x.past <= |v.digits|
    ensures forall x :: x in runs ==> x in runs + [r]
    ensures SpansOf(v, toks, runs + [r]) == SpansOf(v, toks, runs) + SpansOf(v, toks, [r])
  {
    if runs == [] {
      assert [] + [r] == [r];
    } else {
      assert (runs + [r])[1..] == runs[1..] + [r];
      SpansOfAppend(v, toks, runs[1..], r);
    }
  }

  // --- overlaps

  /** By start, the longer first on a tie. */
  predicate Before(a: Span, b: Span) { a.start < b.start || (a.start == b.start && a.end > b.end) }

  ghost predicate Sorted(c: seq<Span>) { forall i, j :: 0 <= i < j < |c| ==> !Before(c[j], c[i]) }

  ghost predicate InText(c: seq<Span>, n: nat) { forall s :: s in c ==> s.start < s.end <= n }

  /** Keeps a span unless it starts before the end of the last one kept. */
  function Keep(c: seq<Span>): seq<Span> {
    if c == [] then []
    else
      var k, s := Keep(c[..|c| - 1]), c[|c| - 1];
      if k != [] && s.start < k[|k| - 1].end then k else k + [s]
  }

  ghost predicate StartCovered(kept: seq<Span>, s: Span) {
    exists k :: k in kept && k.start <= s.start < k.end
  }

  /** What is kept of `c`: spans of the text in order, with every start of `c` inside one. */
  ghost predicate Covers(kept: seq<Span>, c: seq<Span>, n: nat) {
    && Neat(kept, 0, n)
    && (forall s :: s in kept ==> s in c)
    && (forall s :: s in c ==> StartCovered(kept, s))
    && (kept == [] <==> c == [])
  }

  lemma CoversSkipped(kept: seq<Span>, u: seq<Span>, x: Span, n: nat)
    requires Covers(kept, u, n) && kept != []
    requires kept[|kept| - 1].start <= x.start < kept[|kept| - 1].end
    ensures Covers(kept, u + [x], n)
  {
    hide Neat;
    assert StartCovered(kept, x) by { assert kept[|kept| - 1] in kept; }
  }

  lemma CoversAdded(kept: seq<Span>, u: seq<Span>, x: Span, n: nat)
    requires Covers(kept, u, n) && x.start < x.end <= n && (kept == [] || kept[|kept| - 1].end <= x.start)
    ensures Covers(kept + [x], u + [x], n)
  {
    AppendsNeat(kept, x, n);
    hide Neat;
    assert StartCovered(kept + [x], x) by { assert x in kept + [x]; }
    forall s | s in u ensures StartCovered(kept + [x], s) { GrowsCover(kept, x, s); }
    hide StartCovered;
  }

  /** The last kept span starts no later than the next candidate. */
  lemma CoversMore(kept: seq<Span>, u: seq<Span>, x: Span, n: nat)
    requires Covers(kept, u, n) && x.start < x.end <= n
    requires forall s :: s in u ==> s.start <= x.start
    ensures Covers(if kept != [] && x.start < kept[|kept| - 1].end then kept else kept + [x], u + [x], n)
  {
    if kept != [] && x.start < kept[|kept| - 1].end {
      assert kept[|kept| - 1] in u;
      CoversSkipped(kept, u, x, n);
    } else {
      CoversAdded(kept, u, x, n);
    }
  }

  lemma GrowsCover(kept: seq<Span>, x: Span, s: Span)
    requires StartCovered(kept, s)
    ensures StartCovered(kept + [x], s)
  {
    var w :| w in kept && w.start <= s.start < w.end;
    assert w in kept + [x];
  }

  lemma SortedLast(c: seq<Span>, s: Span)
    requires Sorted(c) && s in c
    ensures s.start <= c[|c| - 1].start
  {
    var i :| 0 <= i < |c| && c[i] == s;
    assert i < |c| - 1 ==> !Before(c[|c| - 1], c[i]);
  }

  /** What is kept is in bounds, ordered and disjoint, and the start of every candidate lies in
      a kept span. */
  lemma {:induction false} KeptCoverStarts(c: seq<Span>, n: nat)
    requires Sorted(c) && InText(c, n)
    ensures Covers(Keep(c), c, n)
  {
    if c != [] {
      var u, x := c[..|c| - 1], c[|c| - 1];
      assert c == u + [x] && x in c;
      assert Sorted(u) && InText(u, n) by { forall s | s in u ensures s in c {} }
      KeptCoverStarts(u, n);
      hide Covers, Keep;
      forall s | s in u ensures s.start <= x.start { SortedLast(c, s); }
      hide Sorted;
      CoversMore(Keep(u), u, x, n);
    }
  }

  lemma NeatApart(kept: seq<Span>, n: nat, a: Span, b: Span)
    requires Neat(kept, 0, n) && a in kept && b in kept && Overlap(a, b)
    ensures a == b
  {
    var i :| 0 <= i < |kept| && kept[i] == a;
    var j :| 0 <= j < |kept| && kept[j] == b;
  }

  /** The same in place: the kept spans are moved to the front of the slice. */
  method DropOverlaps(a: array<Span>) returns (n: nat)
    modifies a
    ensures n <= a.Length && a[..n] == Keep(old(a[..]))
  {
    n := 0;
    ghost var c := a[..];
    for i := 0 to a.Length
      invariant n <= i
      invariant a[..n] == Keep(c[..i]) && a[i..] == c[i..]
    {
      var s := a[i];
      assert s == c[i] && c[..i + 1][..i] == c[..i];
      assert a[i + 1..] == c[i + 1..];
      if n > 0 && s.start < a[n - 1].end {
        continue;
      }
      a[n] := s;
      n := n + 1;
    }
    assert c[..a.Length] == c;
  }

  // --- the whole detector

  function InsertSpan(c: seq<Span>, s: Span): seq<Span> {
    if c == [] || !Before(s, c[|c| - 1]) then c + [s]
    else InsertSpan(c[..|c| - 1], s) + [c[|c| - 1]]
  }

  /** `sort.Slice` by start, the longer span first on a tie. */
  function SortSpans(c: seq<Span>): seq<Span> {
    if c == [] then [] else InsertSpan(SortSpans(c[..|c| - 1]), c[|c| - 1])
  }

  lemma {:induction false} InsertSorted(c: seq<Span>, s: Span)
    requires Sorted(c)
    ensures Sorted(InsertSpan(c, s)) && forall x :: x in InsertSpan(c, s) <==> x in c || x == s
  {
    if c != [] {
      var u, last := c[..|c| - 1], c[|c| - 1];
      assert c == u + [last];
      if Before(s, last) {
        InsertSorted(u, s);
        LastSorted(InsertSpan(u, s), last) by {
          forall x | x in InsertSpan(u, s) ensures !Before(last, x) {
            if x in u { var i :| 0 <= i < |u| && u[i] == x; assert c[i] == x; }
          }
        }
      } else {
        LastSorted(c, s) by {
          forall x | x in c ensures !Before(s, x) {
            var i :| 0 <= i < |c| && c[i] == x;
            assert i < |u| ==> !Before(last, c[i]);
          }
        }
      }
    }
  }

  lemma LastSorted(c: seq<Span>, s: Span)
    requires Sorted(c) && forall x :: x in c ==> !Before(s, x)
    ensures Sorted(c + [s])
  {}

  lemma {:induction false} SortSorts(c: seq<Span>)
    ensures Sorted(SortSpans(c)) && forall s :: s in SortSpans(c) <==> s in c
  {
    if c != [] {
      SortSorts(c[..|c| - 1]);
      InsertSorted(SortSpans(c[..|c| - 1]), c[|c| - 1]);
      assert c == c[..|c| - 1] + [c[|c| - 1]];
    }
  }

  const DOB_CONTEXT_WINDOW := 48

  /** The bytes shortly before a position; the first character may be cut. */
  function WindowBefore(text: string, at: nat): (window: seq<int>)
    requires at <= |text|
  {
    var before := Encode(text[..at]);
    before[Max(0, |before| - DOB_CONTEXT_WINDOW)..]
  }

  /** A date counts as a date of birth only with a birth keyword shortly before it. */
  predicate BornNearby(text: string, at: nat, hasContext: seq<int> -> bool)
    requires at <= |text|
  {
    hasContext(WindowBefore(text, at))
  }

  /** The window is what the byte slice of the whole text gives. */
  lemma WindowIsSlice(text: string, at: nat)
    requires at <= |text|
    ensures ByteAt(text, at) <= |Encode(text)|
    ensures WindowBefore(text, at) == Encode(text)[Max(0, ByteAt(text, at) - DOB_CONTEXT_WINDOW)..ByteAt(text, at)]
  {
    hide Encode;
    EncodeConcat(text[..at], text[at..]);
    assert text[..at] + text[at..] == text;
  }

  function DobSpans(text: string, dates: seq<Span>, hasContext: seq<int> -> bool): seq<Span>
    requires InText(dates, |text|)
  {
    if dates == [] then []
    else
      assert dates[0] in dates && InText(dates[1..], |text|) by { forall s | s in dates[1..] ensures s in dates {} }
      (if BornNearby(text, dates[0].start, hasContext) then [dates[0].(kind := Dob)] else [])
      + DobSpans(text, dates[1..], hasContext)
  }

  lemma {:induction false} DobsHaveContext(text: string, dates: seq<Span>, hasContext: seq<int> -> bool)
    requires InText(dates, |text|)
    ensures forall s :: s in DobSpans(text, dates, hasContext) <==>
              exists d :: d in dates && d.(kind := Dob) == s && BornNearby(text, d.start, hasContext)
  {
    if dates != [] {
      assert dates[0] in dates && InText(dates[1..], |text|) by { forall s | s in dates[1..] ensures s in dates {} }
      DobsHaveContext(text, dates[1..], hasContext);
    }
  }

  /** All candidates of a text: digit runs, postal-code matches, dates with a birth context. */
  function Candidates(lex: Lexicon, text: string, postal: seq<Span>, dates: seq<Span>,
                      hasContext: seq<int> -> bool): seq<Span>
    requires InText(dates, |text|)
  {
    TokensFromAreRuns(lex, text, 0, None);
    var toks := Tokens(lex, text);
    DigitSpans(See(lex, text, toks), toks) + postal + DobSpans(text, dates, hasContext)
  }

  lemma CandidatesInText(lex: Lexicon, text: string, postal: seq<Span>, dates: seq<Span>, hasContext: seq<int> -> bool)
    requires InText(postal, |text|) && InText(dates, |text|)
    ensures InText(Candidates(lex, text, postal, dates, hasContext), |text|)
  {
    TokensFromAreRuns(lex, text, 0, None);
    var toks := Tokens(lex, text);
    var v := See(lex, text, toks);
    forall t | t in toks ensures t.end <= |text| { assert IsToken(lex, text, t); }
    hide IsToken, Tokens, See, DigitSpans, DobSpans;
    forall s | s in DigitSpans(v, toks) ensures s.start < s.end <= |text| { DigitSpanInText(v, toks, s, |text|); }
    DobsHaveContext(text, dates, hasContext);
    hide BornNearby;
    forall s | s in DobSpans(text, dates, hasContext) ensures s.start < s.end <= |text| {}
  }

  lemma DigitSpanInText(v: View, toks: seq<Token>, s: Span, n: nat)
    requires Shaped(v) && |toks| == |v.digits| && s in DigitSpans(v, toks)
    requires Ordered(toks, 0) && forall t :: t in toks ==> t.end <= n
    ensures s.start < s.end <= n
  {
    hide DigitSpans, KindOf, Concat, Linked;
    DigitCandidatesAreMaximalRuns(v, toks, s);
    var r :| RunSpan(v, toks, r, s);
    assert toks[r.first] in toks && toks[r.past - 1] in toks;
  }

  /** Detection on every text: the spans are candidates, in bounds, sorted and disjoint, and each
      candidate starts inside one of them. */
  method Detect(lex: Lexicon, text: string, postal: seq<Span>, dates: seq<Span>, hasContext: seq<int> -> bool)
    returns (spans: seq<Span>)
    requires InText(postal, |text|) && InText(dates, |text|)
    ensures var c := Candidates(lex, text, postal, dates, hasContext);
            Covers(spans, c, |text|) && spans == Keep(SortSpans(c))
  {
    var toks := Tokenize(lex, text);
    var digits := DetectDigitRuns(See(lex, text, toks), toks);
    var all := digits + postal + DobSpans(text, dates, hasContext);
    CandidatesInText(lex, text, postal, dates, hasContext);
    assert all == Candidates(lex, text, postal, dates, hasContext);
    hide Candidates, Tokens, See, DigitSpans, DobSpans, Ordered, Keep, Covers, SortSpans;
    SortSorts(all);
    var sorted := SortSpans(all);
    KeptCoverStarts(sorted, |text|);
    var a := new Span[|sorted|](i requires 0 <= i < |sorted| => sorted[i]);
    assert a[..] == sorted;
    var n := DropOverlaps(a);
    spans := a[..n];
    SameCover(spans, sorted, all, |text|);
  }

  lemma SameCover(kept: seq<Span>, c: seq<Span>, d: seq<Span>, n: nat)
    requires Covers(kept, c, n) && forall s :: s in c <==> s in d
    ensures Covers(kept, d, n)
  {
    assert c == [] <==> d == [] by {
      assert c != [] ==> c[0] in d;
      assert d != [] ==> d[0] in c;
    }
  }

  // --- redaction

  /** `storeFails[i]`: the vault refuses the `i`-th original. */
  datatype Redacted = Done(text: string, spans: seq<Span>, vault: seq<string>) | VaultFailed(kind: Kind)

  function FirstRefusal(storeFails: seq<bool>, n: nat): (i: nat)
    ensures i <= n
  {
    if n == 0 then 0
    else if FirstRefusal(storeFails, n - 1) < n - 1 then FirstRefusal(storeFails, n - 1)
    else if n - 1 < |storeFails| && storeFails[n - 1] then n - 1 else n
  }

  lemma {:induction false} FirstRefusalAfter(storeFails: seq<bool>, i: nat, n: nat)
    requires i < n && FirstRefusal(storeFails, i + 1) == i
    ensures FirstRefusal(storeFails, n) == i
  {
    if n > i + 1 { FirstRefusalAfter(storeFails, i, n - 1); }
  }

  lemma NextRefusal(storeFails: seq<bool>, i: nat)
    requires FirstRefusal(storeFails, i) == i
    ensures FirstRefusal(storeFails, i + 1) == if i < |storeFails| && storeFails[i] then i else i + 1
  {}

  ghost predicate InTextSpans(text: string, spans: seq<Span>) { forall s :: s in spans ==> s.start <= s.end <= |text| }

  /** The vault holds the originals of the first `i` spans. */
  ghost predicate Stored(text: string, spans: seq<Span>, i: nat, vault: seq<string>)
    requires i <= |spans| && InTextSpans(text, spans)
  {
    |vault| == i && forall k :: 0 <= k < i ==> spans[k] in spans && vault[k] == text[spans[k].start..spans[k].end]
  }

  lemma InBounds(text: string, spans: seq<Span>)
    requires Neat(spans, 0, |text|)
    ensures InTextSpans(text, spans)
  {}

  lemma OriginalsStep(text: string, spans: seq<Span>, i: nat, vault: seq<string>)
    requires i < |spans| && InTextSpans(text, spans) && Stored(text, spans, i, vault)
    ensures spans[i].start <= spans[i].end <= |text|
    ensures Stored(text, spans, i + 1, vault + [text[spans[i].start..spans[i].end]])
  {
    assert spans[i] in spans;
  }

  lemma AllStored(text: string, spans: seq<Span>, vault: seq<string>)
    requires InTextSpans(text, spans) && Stored(text, spans, |spans|, vault)
    ensures vault == Originals(text, spans)
  {}

  /** The builder loop over the kept spans, storing each original on the way. */
  method RedactText(text: string, spans: seq<Span>, storeFails: seq<bool>) returns (r: Redacted)
    requires Neat(spans, 0, |text|)
    ensures var i := FirstRefusal(storeFails, |spans|);
            if i < |spans| then r == VaultFailed(spans[i].kind)
            else r == Done(Render(text, spans, 0), spans, Originals(text, spans))
  {
    Begun(text, spans);
    if spans == [] {
      assert text[0..] == text;
      return Done(text, [], []);
    }
    var b, vault := "", [];
    var prev: nat := 0;
    hide Progress, FirstRefusal, Mask, Render, Originals, Neat;
    for i := 0 to |spans|
      invariant Progress(text, spans, i, prev, b, vault)
      invariant FirstRefusal(storeFails, i) == i
    {
      var s := spans[i];
      NextRefusal(storeFails, i);
      if i < |storeFails| && storeFails[i] {
        FirstRefusalAfter(storeFails, i, |spans|);
        return VaultFailed(s.kind);
      }
      Progresses(text, spans, i, prev, b, vault);
      vault := vault + [text[s.start..s.end]];
      b := b + text[prev..s.start] + Mask(s.kind);
      prev := s.end;
    }
    Finished(text, spans, prev, b, vault);
    b := b + text[prev..];
    return Done(b, spans, vault);
  }

  /** After `i` spans: what the builder, the cursor and the vault hold. */
  ghost predicate Progress(text: string, spans: seq<Span>, i: nat, prev: nat, b: string, vault: seq<string>) {
    && i <= |spans| && prev <= |text| && Neat(spans[i..], prev, |text|)
    && Neat(spans, 0, |text|) && InTextSpans(text, spans)
    && b + Render(text, spans[i..], prev) == Render(text, spans, 0)
    && Stored(text, spans, i, vault)
  }

  lemma Begun(text: string, spans: seq<Span>)
    requires Neat(spans, 0, |text|)
    ensures Progress(text, spans, 0, 0, "", [])
  {
    InBounds(text, spans);
    assert spans[0..] == spans;
    hide Render;
    assert "" + Render(text, spans, 0) == Render(text, spans, 0);
  }

  lemma Progresses(text: string, spans: seq<Span>, i: nat, prev: nat, b: string, vault: seq<string>)
    requires i < |spans| && Progress(text, spans, i, prev, b, vault)
    ensures prev <= spans[i].start <= spans[i].end <= |text|
    ensures Progress(text, spans, i + 1, spans[i].end, b + text[prev..spans[i].start] + Mask(spans[i].kind),
                     vault + [text[spans[i].start..spans[i].end]])
  {
    RenderStep(text, spans, i, prev);
    OriginalsStep(text, spans, i, vault);
    hide Render, Mask, Neat, Stored, InTextSpans;
  }

  lemma Finished(text: string, spans: seq<Span>, prev: nat, b: string, vault: seq<string>)
    requires Progress(text, spans, |spans|, prev, b, vault)
    ensures prev <= |text| && Neat(spans, 0, |text|) && InTextSpans(text, spans)
    ensures b + text[prev..] == Render(text, spans, 0) && vault == Originals(text, spans)
  {
    NothingLeft(text, spans[|spans|..], prev);
    AllStored(text, spans, vault);
  }

  /** The redacted text, the spans and the vault give the original back, and two texts that
      differ only inside the spans are redacted alike. */
  lemma RedactionIsReversibleAndBlind(text: string, other: string, spans: seq<Span>)
    requires Neat(spans, 0, |text|) && |other| == |text|
    requires forall i :: 0 <= i < |text| && !Inside(spans, i) ==> text[i] == other[i]
    ensures Restore(Render(text, spans, 0), spans, Originals(text, spans), 0) == text
    ensures Render(other, spans, 0) == Render(text, spans, 0)
  {
    RestoreInvertsRender(text, spans, 0);
    assert text[0..] == text;
    RenderHidesSpans(text, other, spans, 0);
  }

  /** The whole redactor: detect, then mask and store. Unless the vault refuses, the result
      gives the text back. */
  method Redact(lex: Lexicon, text: string, postal: seq<Span>, dates: seq<Span>, hasContext: seq<int> -> bool,
                storeFails: seq<bool>)
    returns (r: Redacted)
    requires InText(postal, |text|) && InText(dates, |text|)
    ensures var spans := Keep(SortSpans(Candidates(lex, text, postal, dates, hasContext)));
            var i := FirstRefusal(storeFails, |spans|);
            && Neat(spans, 0, |text|)
            && if i < |spans| then r == VaultFailed(spans[i].kind)
               else
                 && r == Done(Render(text, spans, 0), spans, Originals(text, spans))
                 && Restore(r.text, r.spans, r.vault, 0) == text
  {
    var spans := Detect(lex, text, postal, dates, hasContext);
    hide Candidates, Keep, SortSpans, FirstRefusal, Render, Restore, Originals;
    r := RedactText(text, spans, storeFails);
    RedactionIsReversibleAndBlind(text, text, spans);
  }
}
