/** When the agent runtime's redactor masks whole what its detectors find. */
module Coverage {
  import opened Common
  import opened Spans
  import opened Pii

  /** The genuine matches of one detector, as spans. */
  function GenuineSpans(text: string, ms: seq<Match>, kind: Kind): seq<Span>
    requires Found(ms, |text|)
    decreases |ms|
  {
    if ms == [] then []
    else
      assert Found(ms[1..], |text|);
      (if Genuine(text, ms[0], kind) then [Span(ms[0].start, ms[0].end, kind)] else [])
      + GenuineSpans(text, ms[1..], kind)
  }

  /** All genuine matches, detector by detector in the order the redactor asks them. */
  function AllGenuine(text: string, m: Matches): seq<Span>
    requires AllFound(m, |text|)
  {
    GenuineSpans(text, m.cards, Card) + GenuineSpans(text, m.sins, Sin) + GenuineSpans(text, m.postal, PostalCode)
    + GenuineSpans(text, m.dobWords, Dob) + GenuineSpans(text, m.dobNumeric, Dob)
  }

  /** One span after the other, unless it overlaps one already kept. */
  function Greedy(g: seq<Span>): seq<Span> {
    if g == [] then []
    else
      var kept, x := Greedy(g[..|g| - 1]), g[|g| - 1];
      if Overlaps(kept, x) then kept else kept + [x]
  }

  ghost predicate Solid(g: seq<Span>) { forall s :: s in g ==> s.start < s.end }

  /** A match that overlaps an earlier one lies in some earlier one. */
  ghost predicate HeldEarlier(g: seq<Span>, j: nat)
    requires j < |g|
  {
    exists k :: 0 <= k < j && Holds(g[k], g[j])
  }

  ghost predicate OverlapsHeld(g: seq<Span>) {
    forall i: nat, j: nat :: i < j < |g| && Overlap(g[i], g[j]) ==> HeldEarlier(g, j)
  }

  ghost predicate AllWithin(kept: seq<Span>, g: seq<Span>) { forall s :: s in g ==> Within(kept, s) }

  // --- one greedy pass

  lemma GreedyNext(g: seq<Span>, j: nat)
    requires j < |g|
    ensures var kept := Greedy(g[..j]);
            Greedy(g[..j + 1]) == if Overlaps(kept, g[j]) then kept else kept + [g[j]]
  {
    assert g[..j + 1][..j] == g[..j];
  }

  lemma {:induction false} GreedyGrows(g: seq<Span>, i: nat, j: nat)
    requires i <= j <= |g|
    ensures Greedy(g[..i]) <= Greedy(g[..j])
    decreases j
  {
    if i < j {
      GreedyGrows(g, i, j - 1);
      GreedyNext(g, j - 1);
      hide Greedy, Overlaps;
    }
  }

  lemma {:induction false} GreedyKeepsApart(g: seq<Span>, n: nat)
    requires n <= |g| && Solid(g)
    ensures Apart(Greedy(g[..n]))
    ensures forall s :: s in Greedy(g[..n]) ==> exists k :: 0 <= k < n && g[k] == s
  {
    if n > 0 {
      GreedyKeepsApart(g, n - 1);
      GreedyNext(g, n - 1);
      var kept := Greedy(g[..n - 1]);
      hide Greedy;
      if !Overlaps(kept, g[n - 1]) { AppendApart(kept, g[n - 1]); }
      hide Apart, Overlaps, Solid;
    }
  }

  lemma ApartSame(kept: seq<Span>, a: Span, b: Span)
    requires Apart(kept) && a in kept && b in kept && Overlap(a, b)
    ensures a == b
  {
    var i :| 0 <= i < |kept| && kept[i] == a;
    var j :| 0 <= j < |kept| && kept[j] == b;
  }

  /** Every match lies in a kept one when overlapping matches are held. */
  lemma {:induction false} MatchWithin(g: seq<Span>, j: nat)
    requires j < |g| && Solid(g) && OverlapsHeld(g)
    ensures Within(Greedy(g), g[j])
    decreases j
  {
    GreedyNext(g, j);
    GreedyGrows(g, j + 1, |g|);
    GreedyKeepsApart(g, j);
    assert g[..|g|] == g;
    hide Greedy;
    var kept := Greedy(g[..j]);
    if Overlaps(kept, g[j]) {
      var r :| r in kept && Overlap(g[j], r);
      var i: nat :| i < j && g[i] == r;
      assert Overlap(g[i], g[j]);
      assert HeldEarlier(g, j);
      var k: nat :| k < j && Holds(g[k], g[j]);
      MatchWithin(g, k);
      WithinMore(Greedy(g), g[k], g[j]);
    } else {
      assert g[j] in kept + [g[j]];
      HeldWithin(Greedy(g), g[j], g[j]);
    }
  }

  /** A dropped match that lies in a kept one lies in the one it was dropped for. */
  lemma DroppedHeld(g: seq<Span>, j: nat)
    requires j < |g| && Solid(g) && Within(Greedy(g), g[j]) && Overlaps(Greedy(g[..j]), g[j])
    ensures HeldEarlier(g, j)
  {
    GreedyGrows(g, j, |g|);
    GreedyKeepsApart(g, j);
    GreedyKeepsApart(g, |g|);
    assert g[..|g|] == g;
    var kept := Greedy(g[..j]);
    var r :| r in kept && Overlap(g[j], r);
    var w :| w in Greedy(g) && Holds(w, g[j]);
    assert g[j] in g;
    ApartSame(Greedy(g), w, r);
    var k: nat :| k < j && g[k] == r;
  }

  lemma NoneOverlaps(kept: seq<Span>, x: Span, r: Span)
    requires r in kept && !Overlaps(kept, x)
    ensures !Overlap(x, r)
  {}

  /** What is kept at one step is kept at the end. */
  lemma KeptStays(g: seq<Span>, j: nat, n: nat)
    requires j < n <= |g| && !Overlaps(Greedy(g[..j]), g[j])
    ensures g[j] in Greedy(g[..n])
  {
    GreedyNext(g, j);
    GreedyGrows(g, j + 1, n);
    hide Greedy;
    assert g[j] in Greedy(g[..j]) + [g[j]];
  }

  /** An earlier match that overlaps a kept one lies in it. */
  lemma EarlierInKept(g: seq<Span>, i: nat, j: nat)
    requires i < j < |g| && Solid(g) && Within(Greedy(g), g[i]) && !Overlaps(Greedy(g[..j]), g[j])
    requires Overlap(g[i], g[j])
    ensures Holds(g[j], g[i])
  {
    KeptStays(g, j, |g|);
    GreedyKeepsApart(g, |g|);
    assert g[..|g|] == g && g[i] in g;
    hide Greedy, Apart;
    var w :| w in Greedy(g) && Holds(w, g[i]);
    ApartSame(Greedy(g), w, g[j]);
  }

  /** A kept match overlaps no earlier one, when all lie in kept ones. */
  lemma KeptClear(g: seq<Span>, i: nat, j: nat)
    requires i < j < |g| && Solid(g) && Within(Greedy(g), g[i]) && !Overlaps(Greedy(g[..j]), g[j])
    ensures !Overlap(g[i], g[j])
  {
    hide Greedy, Solid, Within;
    if Overlap(g[i], g[j]) {
      EarlierInKept(g, i, j);
      if Overlaps(Greedy(g[..i]), g[i]) {
        GreedyGrows(g, i, j);
        var r :| r in Greedy(g[..i]) && Overlap(g[i], r);
        NoneOverlaps(Greedy(g[..j]), g[j], r);
        assert false;
      } else {
        KeptStays(g, i, j);
        NoneOverlaps(Greedy(g[..j]), g[j], g[i]);
        assert false;
      }
    }
  }

  lemma GreedyWithinIff(g: seq<Span>)
    requires Solid(g)
    ensures AllWithin(Greedy(g), g) <==> OverlapsHeld(g)
  {
    hide Greedy, Within, HeldEarlier, Solid;
    if OverlapsHeld(g) {
      forall s | s in g ensures Within(Greedy(g), s) {
        var j: nat :| j < |g| && g[j] == s;
        MatchWithin(g, j);
      }
    }
    if AllWithin(Greedy(g), g) {
      forall i: nat, j: nat | i < j < |g| && Overlap(g[i], g[j]) ensures HeldEarlier(g, j) {
        assert g[i] in g && g[j] in g;
        if Overlaps(Greedy(g[..j]), g[j]) { DroppedHeld(g, j); } else { KeptClear(g, i, j); }
      }
    }
  }

  // --- the detectors

  lemma {:induction false} GenuineInText(text: string, ms: seq<Match>, kind: Kind)
    requires Found(ms, |text|)
    ensures forall s :: s in GenuineSpans(text, ms, kind) ==> s.start < s.end <= |text| && Match(s.start, s.end) in ms
    decreases |ms|
  {
    if ms != [] { GenuineInText(text, ms[1..], kind); }
  }

  lemma AllGenuineSolid(text: string, m: Matches)
    requires AllFound(m, |text|)
    ensures Solid(AllGenuine(text, m))
  {
    GenuineInText(text, m.cards, Card);
    GenuineInText(text, m.sins, Sin);
    GenuineInText(text, m.postal, PostalCode);
    GenuineInText(text, m.dobWords, Dob);
    GenuineInText(text, m.dobNumeric, Dob);
    hide GenuineSpans, Found;
  }

  /** One detector is a stretch of the greedy pass; the first finds nothing to overlap. */
  lemma {:induction false} CollectIsGreedy(text: string, g: seq<Span>, ms: seq<Match>, kind: Kind)
    requires Found(ms, |text|)
    requires kind.Card? ==> Clear(Greedy(g), ms)
    ensures Collect(text, Greedy(g), ms, kind) == Greedy(g + GenuineSpans(text, ms, kind))
    decreases |ms|
  {
    if ms == [] {
      assert g + [] == g;
    } else {
      var s, rest := Span(ms[0].start, ms[0].end, kind), GenuineSpans(text, ms[1..], kind);
      if Genuine(text, ms[0], kind) {
        var more := g + [s];
        assert more[..|g|] == g;
        assert g + ([s] + rest) == more + rest;
        assert kind.Card? ==> !Overlaps(Greedy(g), s) && Clear(Greedy(more), ms[1..]);
        CollectIsGreedy(text, more, ms[1..], kind);
      } else {
        assert [] + rest == rest;
        CollectIsGreedy(text, g, ms[1..], kind);
      }
    }
  }

  lemma GatherIsGreedy(text: string, m: Matches)
    requires AllFound(m, |text|)
    ensures Gather(text, m) == Greedy(AllGenuine(text, m))
  {
    hide Collect, GenuineSpans, Found;
    var none: seq<Span> := [];
    assert Greedy(none) == [] && Clear([], m.cards);
    hide Greedy, Clear;
    var a := none + GenuineSpans(text, m.cards, Card);
    CollectIsGreedy(text, none, m.cards, Card);
    var b := a + GenuineSpans(text, m.sins, Sin);
    CollectIsGreedy(text, a, m.sins, Sin);
    var c := b + GenuineSpans(text, m.postal, PostalCode);
    CollectIsGreedy(text, b, m.postal, PostalCode);
    var d := c + GenuineSpans(text, m.dobWords, Dob);
    CollectIsGreedy(text, c, m.dobWords, Dob);
    CollectIsGreedy(text, d, m.dobNumeric, Dob);
    assert a == GenuineSpans(text, m.cards, Card);
  }

  /** For every text: each genuine match is masked whole, by one mask, exactly when every genuine
      match that overlaps one of an earlier detector lies in one of an earlier detector. */
  lemma MaskedWholeIffOverlapsHeld(text: string, m: Matches)
    requires AllFound(m, |text|)
    ensures AllWithin(FindSpans(text, m), AllGenuine(text, m)) <==> OverlapsHeld(AllGenuine(text, m))
  {
    var g := AllGenuine(text, m);
    AllGenuineSolid(text, m);
    GreedyWithinIff(g);
    GatherIsGreedy(text, m);
    GatheredSpansAreApart(text, m);
    SortNeat(Gather(text, m), |text|);
    hide AllGenuine, Gather, SortByStart, Greedy, Holds;
    forall s ensures Within(FindSpans(text, m), s) <==> Within(Greedy(g), s) {}
    hide Within;
  }

  // --- a text whose tail stays

  /** A card number and, from its last group on, a numeric date. */
  const CARD_AND_DATE := "4111 1111 1111 1111/1/90"

  const CARD_AND_DATE_FOUND := Matches([Match(0, 19)], [], [], [], [Match(15, 24)])

  lemma {:induction false} StripConcat(a: string, b: string)
    ensures Strip(a + b) == Strip(a) + Strip(b)
  {
    if a == "" {
      assert a + b == b;
    } else {
      assert (a + b)[1..] == a[1..] + b;
      StripConcat(a[1..], b);
    }
  }

  lemma {:induction false} StripDigits(a: string)
    requires Ascii(a)
    ensures Strip(a) == a
  {
    if a != "" {
      assert a == [a[0]] + a[1..];
      StripDigits(a[1..]);
    }
  }

  function Ones(n: nat): string { seq(n, i => '1') }

  lemma {:induction false} OnesTotal(n: nat)
    ensures Total(Ones(n)) == n + n / 2
  {
    if n > 0 {
      assert Ones(n)[1..] == Ones(n - 1);
      OnesTotal(n - 1);
    }
  }

  lemma StripGroup(a: string)
    ensures Strip(a + " " + Ones(4)) == Strip(a) + Ones(4)
  {
    StripConcat(a + " ", Ones(4));
    StripConcat(a, " ");
    StripDigits(Ones(4));
    assert Strip(" ") == "" + Strip("");
    hide Strip, Ones;
  }

  lemma CardStripped()
    ensures Strip("4111" + " " + Ones(4) + " " + Ones(4) + " " + Ones(4)) == "4" + Ones(15)
  {
    hide Strip, Ones;
    StripDigits("4111");
    StripGroup("4111");
    StripGroup("4111" + " " + Ones(4));
    StripGroup("4111" + " " + Ones(4) + " " + Ones(4));
    OnesJoin();
  }

  lemma OnesJoin()
    ensures "4111" + Ones(4) + Ones(4) + Ones(4) == "4" + Ones(15)
  {}

  lemma CardParts()
    ensures |CARD_AND_DATE| == 24
    ensures CARD_AND_DATE[0..19] == "4111" + " " + Ones(4) + " " + Ones(4) + " " + Ones(4)
    ensures CARD_AND_DATE[19..] == "/1/90"
  {
    var t := CARD_AND_DATE;
    assert t[0] == '4' && t[4] == ' ' && t[9] == ' ' && t[14] == ' ' && t[19] == '/' && t[20] == '1' && t[21] == '/';
    assert t[22] == '9' && t[23] == '0';
    assert forall i :: 1 <= i < 19 && i != 4 && i != 9 && i != 14 ==> t[i] == '1';
  }

  lemma CardTotal()
    ensures |"4" + Ones(15)| == 16 && Total("4" + Ones(15)) == 30
  {
    OnesTotal(15);
    var d := "4" + Ones(15);
    assert d[1..] == Ones(15) && d[0] == '4';
    hide Ones;
  }

  lemma CardIsGenuine()
    ensures |CARD_AND_DATE| == 24 && Genuine(CARD_AND_DATE, Match(0, 19), Card)
  {
    hide CARD_AND_DATE, Strip, Total, Ones;
    CardParts();
    CardStripped();
    CardTotal();
  }

  lemma CardKeepsOut()
    ensures AllFound(CARD_AND_DATE_FOUND, |CARD_AND_DATE|)
    ensures Gather(CARD_AND_DATE, CARD_AND_DATE_FOUND) == [Span(0, 19, Card)]
  {
    CardIsGenuine();
    hide CARD_AND_DATE, Strip, Total, Genuine;
    var t, card, date := CARD_AND_DATE, [Match(0, 19)], [Match(15, 24)];
    assert card[1..] == [] && date[1..] == [];
    var a, none := Span(0, 19, Card), [];
    assert Collect(t, none, card, Card) == none + [a];
    assert none + [a] == [a];
    assert Overlap(Span(15, 24, Dob), a) && Overlaps([a], Span(15, 24, Dob));
    hide Genuine;
    assert Collect(t, [a], date, Dob) == [a];
  }

  lemma OneGenuine(text: string, ms: seq<Match>, kind: Kind)
    requires Found(ms, |text|) && |ms| == 1 && Genuine(text, ms[0], kind)
    ensures GenuineSpans(text, ms, kind) == [Span(ms[0].start, ms[0].end, kind)]
  {
    hide Genuine;
    assert ms[1..] == [];
  }

  lemma CardAndDateGenuine()
    ensures AllFound(CARD_AND_DATE_FOUND, |CARD_AND_DATE|)
    ensures AllGenuine(CARD_AND_DATE, CARD_AND_DATE_FOUND) == [Span(0, 19, Card), Span(15, 24, Dob)]
  {
    CardIsGenuine();
    hide CARD_AND_DATE, Strip, Total;
    OneGenuine(CARD_AND_DATE, [Match(0, 19)], Card);
    OneGenuine(CARD_AND_DATE, [Match(15, 24)], Dob);
    hide Genuine;
    var a, d := Span(0, 19, Card), Span(15, 24, Dob);
    assert [a] + [] + [] + [] + [d] == [a, d];
  }

  /** So a found date can stay in part: the card number before it is masked, and its month and year
      stay in the text. */
  lemma TailOfDateStays()
    ensures AllFound(CARD_AND_DATE_FOUND, |CARD_AND_DATE|)
    ensures var spans := FindSpans(CARD_AND_DATE, CARD_AND_DATE_FOUND);
            var g := AllGenuine(CARD_AND_DATE, CARD_AND_DATE_FOUND);
            && !OverlapsHeld(g) && !AllWithin(spans, g)
            && Neat(spans, 0, |CARD_AND_DATE|) && Render(CARD_AND_DATE, spans, 0) == Mask(Card) + "/1/90"
  {
    CardKeepsOut();
    CardAndDateGenuine();
    CardParts();
    hide CARD_AND_DATE, CARD_AND_DATE_FOUND, Gather, AllGenuine, Mask;
    FoundSpansAreNeat(CARD_AND_DATE, CARD_AND_DATE_FOUND);
    MaskedWholeIffOverlapsHeld(CARD_AND_DATE, CARD_AND_DATE_FOUND);
    var a, d := Span(0, 19, Card), Span(15, 24, Dob);
    assert [a][..0] == [] && SortByStart([a]) == [] + [a];
    assert [a][1..] == [] && CARD_AND_DATE[0..0] == "";
    assert Overlap([a, d][0], [a, d][1]);
    assert !HeldEarlier([a, d], 1);
    hide OverlapsHeld, AllWithin;
  }
}
