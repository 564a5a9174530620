/** The redactor of the agent runtime. The matches of its five expressions are parameters;
    positions count characters while scanning and UTF-8 bytes in the result. */
module Pii {
  import opened Bytes
  import opened Common
  import opened Spans
  import Events
  import L = Luhn

  // --- the checksum over characters

  function Value(c: char, double: bool): int {
    var d := c as int - '0' as int;
    if double then if 2 * d > 9 then 2 * d - 9 else 2 * d else d
  }

  /** Every second character from the right, the last excluded, is doubled. */
  function Total(digits: string): int {
    if digits == "" then 0 else Value(digits[0], |digits| % 2 == 0) + Total(digits[1..])
  }

  method LuhnOk(digits: string) returns (ok: bool)
    ensures ok == (Total(digits) % 10 == 0)
  {
    var total := 0;
    for i := 0 to |digits|
      invariant total == Total(digits[|digits| - i..])
    {
      var ch := digits[|digits| - 1 - i];
      var d := ch as int - '0' as int;
      if i % 2 == 1 {
        d := d * 2;
        if d > 9 {
          d := d - 9;
        }
      }
      assert digits[|digits| - 1 - i..][1..] == digits[|digits| - i..];
      total := total + d;
    }
    assert digits[0..] == digits;
    return total % 10 == 0;
  }

  predicate Ascii(digits: string) { forall i :: 0 <= i < |digits| ==> '0' <= digits[i] <= '9' }

  function ToDigits(digits: string): seq<L.Digit>
    requires Ascii(digits)
  {
    if digits == "" then [] else [digits[0] as int - '0' as int] + ToDigits(digits[1..])
  }

  /** On ASCII digits the two services agree on the checksum. */
  lemma {:induction false} TotalIsLuhnSum(digits: string)
    requires Ascii(digits)
    ensures |ToDigits(digits)| == |digits| && Total(digits) == L.Sum(ToDigits(digits))
  {
    if digits != "" {
      TotalIsLuhnSum(digits[1..]);
    }
  }

  // --- spans

  datatype Match = Match(start: nat, end: nat)

  /** What `finditer` yields: non-empty matches inside the text, left to right, disjoint. */
  ghost predicate Found(ms: seq<Match>, n: nat) {
    && (forall i :: 0 <= i < |ms| ==> ms[i].start < ms[i].end <= n)
    && forall i, j :: 0 <= i < j < |ms| ==> ms[i].end <= ms[j].start
  }

  datatype Matches = Matches(cards: seq<Match>, sins: seq<Match>, postal: seq<Match>,
                             dobWords: seq<Match>, dobNumeric: seq<Match>)

  ghost predicate AllFound(m: Matches, n: nat) {
    Found(m.cards, n) && Found(m.sins, n) && Found(m.postal, n) && Found(m.dobWords, n) && Found(m.dobNumeric, n)
  }

  function Strip(s: string): string {
    if s == "" then "" else (if s[0] in {' ', '-'} then "" else [s[0]]) + Strip(s[1..])
  }

  /** Whether a match of a pattern is PII: the number patterns need the length and the checksum. */
  predicate Genuine(text: string, m: Match, kind: Kind)
    requires m.start <= m.end <= |text|
  {
    var digits := Strip(text[m.start..m.end]);
    match kind
    case Card => 13 <= |digits| <= 19 && Total(digits) % 10 == 0
    case Sin => |digits| == 9 && Total(digits) % 10 == 0
    case _ => true
  }

  predicate Overlaps(spans: seq<Span>, s: Span) { exists k :: k in spans && Overlap(s, k) }

  /** One detector after the others: a genuine match is added unless it overlaps an earlier span;
      the first detector does not look. */
  function Collect(text: string, spans: seq<Span>, ms: seq<Match>, kind: Kind): seq<Span>
    requires Found(ms, |text|)
    decreases |ms|
  {
    if ms == [] then spans
    else
      assert Found(ms[1..], |text|);
      var s := Span(ms[0].start, ms[0].end, kind);
      Collect(text, if Genuine(text, ms[0], kind) && (kind.Card? || !Overlaps(spans, s)) then spans + [s] else spans,
              ms[1..], kind)
  }

  function Gather(text: string, m: Matches): seq<Span>
    requires AllFound(m, |text|)
  {
    var a := Collect(text, [], m.cards, Card);
    var b := Collect(text, a, m.sins, Sin);
    var c := Collect(text, b, m.postal, PostalCode);
    var d := Collect(text, c, m.dobWords, Dob);
    Collect(text, d, m.dobNumeric, Dob)
  }

  ghost predicate Apart(spans: seq<Span>) {
    forall i, j :: 0 <= i < |spans| && 0 <= j < |spans| && i != j ==> !Overlap(spans[i], spans[j])
  }

  ghost predicate InText(spans: seq<Span>, n: nat) { forall s :: s in spans ==> s.start < s.end <= n }

  /** A genuine match is kept, or overlaps a span that is. */
  ghost predicate Caught(text: string, spans: seq<Span>, ms: seq<Match>, kind: Kind)
    requires Found(ms, |text|)
  {
    forall i :: 0 <= i < |ms| && Genuine(text, ms[i], kind) ==> Overlaps(spans, Span(ms[i].start, ms[i].end, kind))
  }

  /** Cards come first, before anything they could overlap. */
  ghost predicate Clear(spans: seq<Span>, ms: seq<Match>) {
    forall s, i :: s in spans && 0 <= i < |ms| ==> s.end <= ms[i].start
  }

  lemma AppendApart(spans: seq<Span>, s: Span)
    requires Apart(spans) && !Overlaps(spans, s)
    ensures Apart(spans + [s])
  {
    forall k | k in spans ensures !Overlap(s, k) && !Overlap(k, s) {}
  }

  lemma {:induction false} CollectKeepsApart(text: string, spans: seq<Span>, ms: seq<Match>, kind: Kind)
    requires Found(ms, |text|) && Apart(spans) && InText(spans, |text|)
    requires kind.Card? ==> Clear(spans, ms)
    ensures var r := Collect(text, spans, ms, kind);
            && Apart(r) && InText(r, |text|) && spans <= r
            && Caught(text, r, ms, kind)
            && forall s :: s in r ==> s in spans || (s.kind == kind && Match(s.start, s.end) in ms)
    decreases |ms|
  {
    if ms != [] {
      var s, m := Span(ms[0].start, ms[0].end, kind), ms[0];
      var take := Genuine(text, m, kind) && (kind.Card? || !Overlaps(spans, s));
      var next := if take then spans + [s] else spans;
      if take { AppendApart(spans, s); }
      assert Clear(spans, ms) ==> Clear(next, ms[1..]);
      CollectKeepsApart(text, next, ms[1..], kind);
      var r := Collect(text, next, ms[1..], kind);
      assert r == Collect(text, spans, ms, kind);
      hide Collect, Apart;
      forall i | 0 <= i < |ms| && Genuine(text, ms[i], kind) ensures Overlaps(r, Span(ms[i].start, ms[i].end, kind)) {
        if i == 0 {
          OverlapsGrows(next, r, s);
        } else {
          assert ms[1..][i - 1] == ms[i];
        }
      }
    }
  }

  lemma OverlapsGrows(a: seq<Span>, b: seq<Span>, s: Span)
    requires a <= b && (Overlaps(a, s) || (s in a && s.start < s.end))
    ensures Overlaps(b, s)
  {
    if s in a && s.start < s.end {
      assert s in b && Overlap(s, s);
    } else {
      var k :| k in a && Overlap(s, k);
      assert k in b;
    }
  }

  lemma CaughtGrows(text: string, a: seq<Span>, b: seq<Span>, ms: seq<Match>, kind: Kind)
    requires Found(ms, |text|) && a <= b && Caught(text, a, ms, kind)
    ensures Caught(text, b, ms, kind)
  {
    forall i | 0 <= i < |ms| && Genuine(text, ms[i], kind) ensures Overlaps(b, Span(ms[i].start, ms[i].end, kind)) {
      OverlapsGrows(a, b, Span(ms[i].start, ms[i].end, kind));
    }
  }

  /** No two spans overlap, all lie in the text, and every genuine match of every detector is
      kept or overlaps a kept span. */
  lemma GatheredSpansAreApart(text: string, m: Matches)
    requires AllFound(m, |text|)
    ensures var r := Gather(text, m);
            && Apart(r) && InText(r, |text|)
            && Caught(text, r, m.cards, Card) && Caught(text, r, m.sins, Sin) && Caught(text, r, m.postal, PostalCode)
            && Caught(text, r, m.dobWords, Dob) && Caught(text, r, m.dobNumeric, Dob)
  {
    hide Apart, InText, Found, Caught, Collect;
    var a := Collect(text, [], m.cards, Card);
    assert Apart([]) && InText([], |text|) && Clear([], m.cards) by { NothingClear(m.cards, |text|); }
    CollectKeepsApart(text, [], m.cards, Card);
    var b := Collect(text, a, m.sins, Sin);
    CollectKeepsApart(text, a, m.sins, Sin);
    var c := Collect(text, b, m.postal, PostalCode);
    CollectKeepsApart(text, b, m.postal, PostalCode);
    var d := Collect(text, c, m.dobWords, Dob);
    CollectKeepsApart(text, c, m.dobWords, Dob);
    var e := Collect(text, d, m.dobNumeric, Dob);
    CollectKeepsApart(text, d, m.dobNumeric, Dob);
    CaughtGrows(text, a, e, m.cards, Card);
    CaughtGrows(text, b, e, m.sins, Sin);
    CaughtGrows(text, c, e, m.postal, PostalCode);
    CaughtGrows(text, d, e, m.dobWords, Dob);
  }

  lemma NothingClear(ms: seq<Match>, n: nat)
    ensures Apart([]) && InText([], n) && Clear([], ms)
  {}

  function InsertByStart(spans: seq<Span>, s: Span): seq<Span> {
    if spans == [] || spans[|spans| - 1].start <= s.start then spans + [s]
    else InsertByStart(spans[..|spans| - 1], s) + [spans[|spans| - 1]]
  }

  /** `spans.sort` by start. */
  function SortByStart(spans: seq<Span>): seq<Span> {
    if spans == [] then [] else InsertByStart(SortByStart(spans[..|spans| - 1]), spans[|spans| - 1])
  }

  lemma FrontNeat(spans: seq<Span>, s: Span, n: nat)
    requires Neat(spans, 0, n) && spans != [] && !Overlaps(spans, s)
    ensures var u, last := spans[..|spans| - 1], spans[|spans| - 1];
            && Neat(u, 0, n) && last.start < last.end <= n
            && !Overlaps(u, s)
            && forall k :: k in u ==> k.end <= last.start
  {
    var u := spans[..|spans| - 1];
    forall k | k in u ensures !Overlap(s, k) && k.end <= spans[|spans| - 1].start {
      var i :| 0 <= i < |u| && u[i] == k;
      assert spans[i] == k && k in spans;
    }
  }

  lemma {:induction false} InsertNeat(spans: seq<Span>, s: Span, n: nat)
    requires Neat(spans, 0, n) && s.start < s.end <= n && !Overlaps(spans, s)
    ensures Neat(InsertByStart(spans, s), 0, n)
    ensures forall x :: x in InsertByStart(spans, s) <==> x in spans || x == s
    ensures |InsertByStart(spans, s)| == |spans| + 1
  {
    if spans == [] {
    } else {
      var u, last := spans[..|spans| - 1], spans[|spans| - 1];
      assert spans == u + [last] && last in spans && !Overlap(s, last);
      if last.start <= s.start {
        AppendsNeat(spans, s, n);
      } else {
        FrontNeat(spans, s, n);
        InsertNeat(u, s, n);
        hide Neat, Overlaps, InsertByStart;
        var r := InsertByStart(u, s);
        assert r[|r| - 1] in r;
        AppendsNeat(r, last, n);
      }
    }
  }

  lemma {:induction false} SortNeat(spans: seq<Span>, n: nat)
    requires Apart(spans) && InText(spans, n)
    ensures Neat(SortByStart(spans), 0, n)
    ensures forall s :: s in SortByStart(spans) <==> s in spans
  {
    if spans != [] {
      var u, x := spans[..|spans| - 1], spans[|spans| - 1];
      assert spans == u + [x];
      assert x in spans && forall s :: s in u ==> s in spans;
      assert forall i :: 0 <= i < |u| ==> u[i] == spans[i];
      SortNeat(u, n);
      forall k | k in SortByStart(u) ensures !Overlap(x, k) {
        var i :| 0 <= i < |u| && u[i] == k;
        assert !Overlap(spans[|u|], spans[i]);
      }
      InsertNeat(SortByStart(u), x, n);
    }
  }

  function FindSpans(text: string, m: Matches): seq<Span>
    requires AllFound(m, |text|)
  {
    SortByStart(Gather(text, m))
  }

  lemma FoundSpansAreNeat(text: string, m: Matches)
    requires AllFound(m, |text|)
    ensures Neat(FindSpans(text, m), 0, |text|)
  {
    GatheredSpansAreApart(text, m);
    SortNeat(Gather(text, m), |text|);
  }

  // --- byte redactions

  function ToRedaction(text: string, s: Span): Events.Redaction
    requires s.start <= s.end <= |text|
  {
    Events.Redaction(ByteAt(text, s.start), ByteAt(text, s.end), Name(s.kind), "")
  }

  function ToRedactions(text: string, spans: seq<Span>): seq<Events.Redaction>
    requires InText(spans, |text|)
  {
    seq(|spans|, i requires 0 <= i < |spans| => assert spans[i] in spans; ToRedaction(text, spans[i]))
  }

  lemma NextRedaction(text: string, spans: seq<Span>, i: nat)
    requires i < |spans| && InText(spans, |text|)
    ensures spans[i].start <= spans[i].end <= |text| && InText(spans[..i], |text|) && InText(spans[..i + 1], |text|)
    ensures ToRedactions(text, spans[..i + 1]) == ToRedactions(text, spans[..i]) + [ToRedaction(text, spans[i])]
  {
    hide ToRedaction;
    assert spans[i] in spans;
    forall s | s in spans[..i + 1] ensures s in spans {}
    forall s | s in spans[..i] ensures s in spans {}
    assert spans[..i + 1] == spans[..i] + [spans[i]];
  }

  lemma NeatInText(spans: seq<Span>, from: nat, n: nat)
    requires Neat(spans, from, n)
    ensures InText(spans, n)
  {}

  /** After `i` spans: the output, the cursor and the redactions. */
  ghost predicate Masked(text: string, spans: seq<Span>, i: nat, cursor: nat, out: string,
                         redactions: seq<Events.Redaction>)
  {
    && i <= |spans| && cursor <= |text| && Neat(spans[i..], cursor, |text|) && Neat(spans, 0, |text|)
    && out + Render(text, spans[i..], cursor) == Render(text, spans, 0)
    && InText(spans, |text|) && InText(spans[..i], |text|) && redactions == ToRedactions(text, spans[..i])
  }

  lemma MaskBegins(text: string, spans: seq<Span>)
    requires Neat(spans, 0, |text|) && InText(spans, |text|)
    ensures Masked(text, spans, 0, 0, "", [])
  {
    hide Render, Neat;
    assert spans[0..] == spans && "" + Render(text, spans, 0) == Render(text, spans, 0);
  }

  lemma MaskNext(text: string, spans: seq<Span>, i: nat, cursor: nat, out: string, redactions: seq<Events.Redaction>)
    requires i < |spans| && Masked(text, spans, i, cursor, out, redactions)
    ensures cursor <= spans[i].start <= spans[i].end <= |text|
    ensures Masked(text, spans, i + 1, spans[i].end, out + text[cursor..spans[i].start] + Mask(spans[i].kind),
                   redactions + [ToRedaction(text, spans[i])])
  {
    hide Mask, Neat, Render, ToRedaction, ToRedactions, InText;
    RenderStep(text, spans, i, cursor);
    NextRedaction(text, spans, i);
  }

  lemma MaskEnds(text: string, spans: seq<Span>, cursor: nat, out: string, redactions: seq<Events.Redaction>)
    requires Masked(text, spans, |spans|, cursor, out, redactions)
    ensures cursor <= |text| && Neat(spans, 0, |text|) && InText(spans, |text|)
    ensures out + text[cursor..] == Render(text, spans, 0) && redactions == ToRedactions(text, spans)
  {
    NothingLeft(text, spans[|spans|..], cursor);
    hide Render, ToRedactions, Neat, InText;
    assert spans[..|spans|] == spans;
  }

  /** The loop over the sorted spans. */
  method MaskSpans(text: string, spans: seq<Span>) returns (out: string, redactions: seq<Events.Redaction>)
    requires Neat(spans, 0, |text|) && InText(spans, |text|)
    ensures out == Render(text, spans, 0) && redactions == ToRedactions(text, spans)
  {
    out, redactions := "", [];
    var cursor: nat := 0;
    MaskBegins(text, spans);
    hide Mask, Neat, Render, ToRedaction, ToRedactions, InText, Masked;
    for i := 0 to |spans|
      invariant Masked(text, spans, i, cursor, out, redactions)
    {
      var s := spans[i];
      MaskNext(text, spans, i, cursor, out, redactions);
      out := out + text[cursor..s.start] + Mask(s.kind);
      redactions := redactions + [ToRedaction(text, s)];
      cursor := s.end;
    }
    MaskEnds(text, spans, cursor, out, redactions);
    out := out + text[cursor..];
  }

  method Redact(text: string, m: Matches) returns (out: string, redactions: seq<Events.Redaction>)
    requires AllFound(m, |text|)
    ensures Neat(FindSpans(text, m), 0, |text|) && InText(FindSpans(text, m), |text|)
    ensures out == Render(text, FindSpans(text, m), 0)
    ensures redactions == ToRedactions(text, FindSpans(text, m))
  {
    FoundSpansAreNeat(text, m);
    NeatInText(FindSpans(text, m), 0, |text|);
    var spans := FindSpans(text, m);
    if spans == [] {
      assert text[0..] == text;
      return text, [];
    }
    out, redactions := MaskSpans(text, spans);
  }

  /** Over bytes too the redactions are non-empty, ordered and disjoint, and each names exactly
      the bytes of what it masks. */
  lemma RedactionsNameTheBytes(text: string, spans: seq<Span>)
    requires Neat(spans, 0, |text|) && InText(spans, |text|)
    ensures var rs := ToRedactions(text, spans);
            && (forall i :: 0 <= i < |rs| ==>
                  && 0 <= rs[i].start < rs[i].end <= |Encode(text)|
                  && Encode(text)[rs[i].start..rs[i].end] == Encode(text[spans[i].start..spans[i].end]))
            && forall i, j :: 0 <= i < j < |rs| ==> rs[i].end <= rs[j].start
  {
    hide Encode;
    var rs := ToRedactions(text, spans);
    forall i | 0 <= i < |rs|
      ensures 0 <= rs[i].start < rs[i].end <= |Encode(text)|
      ensures Encode(text)[rs[i].start..rs[i].end] == Encode(text[spans[i].start..spans[i].end])
    {
      ByteOffsetsCutTheSpan(text, spans[i].start, spans[i].end);
    }
    forall i, j | 0 <= i < j < |rs| ensures rs[i].end <= rs[j].start {
      ByteOffsetsGrow(text, spans[i].end, spans[j].start);
    }
  }
}
