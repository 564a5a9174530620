/** Spans of a text, and the text with spans masked out. */
module Spans {
  import opened Common

  datatype Kind = Card | Sin | PostalCode | Dob

  datatype Span = Span(start: nat, end: nat, kind: Kind)

  function Name(kind: Kind): string {
    match kind
    case Card => "card"
    case Sin => "sin"
    case PostalCode => "postal_code"
    case Dob => "dob"
  }

  function Mask(kind: Kind): string { "[redacted:" + Name(kind) + "]" }

  /** Non-empty spans of the text, in order and disjoint, from position `from` on. */
  ghost predicate Neat(spans: seq<Span>, from: nat, n: nat) {
    && (forall i :: 0 <= i < |spans| ==> from <= spans[i].start < spans[i].end <= n)
    && forall i, j :: 0 <= i < j < |spans| ==> spans[i].end <= spans[j].start
  }

  predicate Overlap(a: Span, b: Span) { a.start < b.end && b.start < a.end }

  /** `u` holds all of `s`. */
  predicate Holds(u: Span, s: Span) { u.start <= s.start && s.end <= u.end }

  /** Some kept span holds all of `s`. */
  ghost predicate Within(kept: seq<Span>, s: Span) { exists k :: k in kept && Holds(k, s) }

  lemma HeldWithin(kept: seq<Span>, k: Span, s: Span)
    requires k in kept && Holds(k, s)
    ensures Within(kept, s)
  {}

  lemma WithinMore(kept: seq<Span>, u: Span, s: Span)
    requires Within(kept, u) && Holds(u, s)
    ensures Within(kept, s)
  {
    var w :| w in kept && Holds(w, u);
    assert Holds(w, s);
  }

  lemma AppendsNeat(kept: seq<Span>, x: Span, n: nat)
    requires Neat(kept, 0, n) && x.start < x.end <= n && (kept == [] || kept[|kept| - 1].end <= x.start)
    ensures Neat(kept + [x], 0, n)
  {
    forall i | 0 <= i < |kept| ensures kept[i].end <= x.start {
      assert i < |kept| - 1 ==> kept[i].end <= kept[|kept| - 1].start;
    }
  }

  /** What remains of the text from `from` on, each span replaced by its mask. */
  function Render(text: string, spans: seq<Span>, from: nat): string
    requires from <= |text| && Neat(spans, from, |text|)
    decreases |spans|
  {
    if spans == [] then text[from..]
    else
      var s := spans[0];
      text[from..s.start] + Mask(s.kind) + Render(text, spans[1..], s.end)
  }

  lemma RenderStep(text: string, spans: seq<Span>, i: nat, prev: nat)
    requires i < |spans| && prev <= |text| && Neat(spans[i..], prev, |text|)
    ensures prev <= spans[i].start < spans[i].end <= |text| && Neat(spans[i + 1..], spans[i].end, |text|)
    ensures Render(text, spans[i..], prev)
         == text[prev..spans[i].start] + Mask(spans[i].kind) + Render(text, spans[i + 1..], spans[i].end)
  {
    hide Mask;
    assert spans[i..][0] == spans[i] && spans[i..][1..] == spans[i + 1..];
  }

  lemma NothingLeft(text: string, spans: seq<Span>, prev: nat)
    requires spans == [] && prev <= |text|
    ensures Neat(spans, prev, |text|) && Render(text, spans, prev) == text[prev..]
  {}

  function Originals(text: string, spans: seq<Span>): seq<string>
    requires forall s :: s in spans ==> s.start <= s.end <= |text|
  {
    seq(|spans|, i requires 0 <= i < |spans| => text[spans[i].start..spans[i].end])
  }

  /** Puts the originals back, reading positions of the original text off the spans. */
  function Restore(redacted: string, spans: seq<Span>, originals: seq<string>, from: nat): string
    requires |spans| == |originals|
    decreases |spans|
  {
    if spans == [] then redacted
    else
      var s := spans[0];
      var gap := Min(Max(0, s.start - from), |redacted|);
      var rest := Min(gap + |Mask(s.kind)|, |redacted|);
      redacted[..gap] + originals[0] + Restore(redacted[rest..], spans[1..], originals[1..], s.end)
  }

  /** Redaction loses nothing: the redacted text, the spans and the stored originals give the
      text back. */
  lemma {:induction false} RestoreInvertsRender(text: string, spans: seq<Span>, from: nat)
    requires from <= |text| && Neat(spans, from, |text|)
    ensures Restore(Render(text, spans, from), spans, Originals(text, spans), from) == text[from..]
    decreases |spans|
  {
    if spans != [] {
      var s := spans[0];
      RestoreStep(text[from..s.start], Render(text, spans[1..], s.end), spans, Originals(text, spans), from);
      RestoreInvertsRender(text, spans[1..], s.end);
      OriginalsTail(text, spans);
      CutThree(text, from, s.start, s.end);
      hide Restore, Mask, Neat;
    }
  }

  lemma CutThree(text: string, a: nat, b: nat, c: nat)
    requires a <= b <= c <= |text|
    ensures text[a..] == text[a..b] + text[b..c] + text[c..]
  {}

  lemma RestoreStep(gap: string, tail: string, spans: seq<Span>, originals: seq<string>, from: nat)
    requires spans != [] && |spans| == |originals| && |gap| == spans[0].start - from
    ensures Restore(gap + Mask(spans[0].kind) + tail, spans, originals, from)
         == gap + originals[0] + Restore(tail, spans[1..], originals[1..], spans[0].end)
  {
    hide Mask;
    Peel(gap, Mask(spans[0].kind), tail);
  }

  lemma Peel(a: string, b: string, c: string)
    ensures (a + b + c)[..|a|] == a && (a + b + c)[|a| + |b|..] == c
  {}

  lemma OriginalsTail(text: string, spans: seq<Span>)
    requires spans != [] && forall s :: s in spans ==> s.start <= s.end <= |text|
    ensures Originals(text, spans)[1..] == Originals(text, spans[1..])
  {}

  ghost predicate Inside(spans: seq<Span>, i: int) {
    exists k :: 0 <= k < |spans| && spans[k].start <= i < spans[k].end
  }

  lemma InsideTail(spans: seq<Span>, i: int)
    requires spans != [] && spans[0].end <= i
    ensures Inside(spans, i) <==> Inside(spans[1..], i)
  {
    forall k | 0 <= k < |spans[1..]| ensures spans[1..][k] == spans[k + 1] {}
    if k :| 0 <= k < |spans| && spans[k].start <= i < spans[k].end {
      assert spans[1..][k - 1] == spans[k];
    }
    if k :| 0 <= k < |spans[1..]| && spans[1..][k].start <= i < spans[1..][k].end {
      assert spans[k + 1] == spans[1..][k];
    }
  }

  /** The redacted text says nothing about what was inside the spans: texts that differ only
      there look the same. */
  lemma {:induction false} RenderHidesSpans(a: string, b: string, spans: seq<Span>, from: nat)
    requires |a| == |b| && from <= |a| && Neat(spans, from, |a|)
    requires forall i :: from <= i < |a| && !Inside(spans, i) ==> a[i] == b[i]
    ensures Render(a, spans, from) == Render(b, spans, from)
    decreases |spans|
  {
    if spans == [] {
      assert a[from..] == b[from..];
    } else {
      var s, rest := spans[0], spans[1..];
      assert a[from..s.start] == b[from..s.start];
      forall i | s.end <= i < |a| && !Inside(rest, i) ensures a[i] == b[i] {
        InsideTail(spans, i);
      }
      RenderHidesSpans(a, b, rest, s.end);
    }
  }
}
