/** Adaptive endpointing: how long a pause ends the caller's turn, and which utterances are
    mere backchannel. The dictionaries and the Unicode tables are parameters. */
module Endpoint {
  import opened Text

  type Locale = string

  const FR_CA: Locale := "fr-CA"

  datatype Profile = Profile(hesitation: set<string>, backchannel: set<string>,
                             incomplete: set<string>, numbers: set<string>, questionLed: set<string>)

  /** The dictionaries per language and the character tables in use. */
  datatype Lexicon = Lexicon(en: Profile, fr: Profile, lower: char -> char,
                             isPunct: char -> bool, isDigit: char -> bool)

  datatype Delays = Delays(hesitationMs: int, numberMs: int, incompleteMs: int,
                           questionMs: int, defaultMs: int)

  function ProfileFor(x: Lexicon, loc: Locale): Profile {
    if loc == FR_CA then x.fr else x.en
  }

  function ToLower(x: Lexicon, s: string): (r: string)
    ensures |r| == |s|
  {
    seq(|s|, i requires 0 <= i < |s| => x.lower(s[i]))
  }

  /** The length of the leading stretch without white space. */
  function FieldLen(s: string): (n: nat)
    ensures n <= |s|
    ensures forall i :: 0 <= i < n ==> !IsSpace(s[i])
    ensures n < |s| ==> IsSpace(s[n])
  {
    if s == "" || IsSpace(s[0]) then 0 else 1 + FieldLen(s[1..])
  }

  /** `strings.Fields`: the maximal stretches without white space. */
  function Fields(s: string): seq<string>
    decreases |s|
  {
    if s == "" then []
    else if IsSpace(s[0]) then Fields(s[1..])
    else [s[..FieldLen(s)]] + Fields(s[FieldLen(s)..])
  }

  predicate Outer(x: Lexicon, c: char) { x.isPunct(c) && c != '\'' && c != '-' }

  function StripLeft(x: Lexicon, s: string): string {
    if s != "" && Outer(x, s[0]) then StripLeft(x, s[1..]) else s
  }

  function StripRight(x: Lexicon, s: string): string {
    if s != "" && Outer(x, s[|s| - 1]) then StripRight(x, s[..|s| - 1]) else s
  }

  function Strip(x: Lexicon, s: string): string { StripRight(x, StripLeft(x, s)) }

  /** The tokens that the given fields leave after outer punctuation is stripped. */
  function Stripped(x: Lexicon, fields: seq<string>): seq<string> {
    if fields == [] then []
    else
      var rest := Stripped(x, fields[..|fields| - 1]);
      var tok := Strip(x, fields[|fields| - 1]);
      if tok != "" then rest + [tok] else rest
  }

  function Tokenize(x: Lexicon, text: string): seq<string> {
    Stripped(x, Fields(ToLower(x, text)))
  }

  method TokenizeLoop(x: Lexicon, text: string) returns (out: seq<string>)
    ensures out == Tokenize(x, text)
  {
    var fields := Fields(ToLower(x, text));
    out := [];
    for i := 0 to |fields|
      invariant out == Stripped(x, fields[..i])
    {
      assert fields[..i + 1][..i] == fields[..i];
      var tok := Strip(x, fields[i]);
      if tok != "" {
        out := out + [tok];
      }
    }
    assert fields[..|fields|] == fields;
  }

  predicate AllDigits(x: Lexicon, tok: string) {
    forall i :: 0 <= i < |tok| ==> x.isDigit(tok[i]) || tok[i] == '-'
  }

  predicate IsNumericToken(x: Lexicon, p: Profile, tok: string) {
    tok in p.numbers || (tok != "" && AllDigits(x, tok))
  }

  predicate EndsWithQuestion(text: string) {
    var t := TrimSpace(text);
    t != "" && t[|t| - 1] == '?'
  }

  function WaitForMs(x: Lexicon, text: string, loc: Locale, d: Delays): int {
    var p, toks := ProfileFor(x, loc), Tokenize(x, text);
    if toks == [] then d.defaultMs
    else
      var last := toks[|toks| - 1];
      if last in p.hesitation then d.hesitationMs
      else if IsNumericToken(x, p, last) then d.numberMs
      else if last in p.incomplete then d.incompleteMs
      else if EndsWithQuestion(text) then d.questionMs
      else if toks[0] in p.questionLed then d.questionMs
      else d.defaultMs
  }

  predicate IsBackchannel(x: Lexicon, text: string, loc: Locale) {
    var toks := Tokenize(x, text);
    && 0 < |toks| <= 3
    && forall i :: 0 <= i < |toks| ==> toks[i] in ProfileFor(x, loc).backchannel
  }

  method IsBackchannelLoop(x: Lexicon, text: string, loc: Locale) returns (r: bool)
    ensures r == IsBackchannel(x, text, loc)
  {
    var p := ProfileFor(x, loc);
    var toks := TokenizeLoop(x, text);
    if |toks| == 0 || |toks| > 3 {
      return false;
    }
    for i := 0 to |toks|
      invariant forall j :: 0 <= j < i ==> toks[j] in p.backchannel
    {
      if toks[i] !in p.backchannel {
        return false;
      }
    }
    return true;
  }

  /** The number of characters of `text` that are not white space. */
  function RealTextLen(text: string): nat {
    if text == "" then 0
    else RealTextLen(text[..|text| - 1]) + if IsSpace(text[|text| - 1]) then 0 else 1
  }

  method RealTextLenLoop(text: string) returns (n: nat)
    ensures n == RealTextLen(text)
  {
    n := 0;
    for i := 0 to |text|
      invariant n == RealTextLen(text[..i])
    {
      assert text[..i + 1][..i] == text[..i];
      if !IsSpace(text[i]) {
        n := n + 1;
      }
    }
    assert text[..|text|] == text;
  }

  lemma {:induction false} StripBare(x: Lexicon, s: string)
    ensures StripLeft(x, s) == "" || !Outer(x, StripLeft(x, s)[0])
    ensures StripRight(x, s) == "" || !Outer(x, StripRight(x, s)[|StripRight(x, s)| - 1])
    ensures StripRight(x, s) <= s
    decreases |s|
  {
    if s != "" {
      StripBare(x, s[1..]);
      StripBare(x, s[..|s| - 1]);
    }
  }

  /** Tokens are never empty and never begin or end with punctuation to strip. */
  lemma {:induction false} TokensAreBare(x: Lexicon, fields: seq<string>)
    ensures forall tok :: tok in Stripped(x, fields) ==>
              tok != "" && !Outer(x, tok[0]) && !Outer(x, tok[|tok| - 1])
  {
    if fields != [] {
      TokensAreBare(x, fields[..|fields| - 1]);
      var f := fields[|fields| - 1];
      StripBare(x, f);
      StripBare(x, StripLeft(x, f));
    }
  }

  /** Concatenating texts at a space concatenates their tokens: what the endpointer reads
      of a joined draft is what it would read of the parts. */
  lemma {:induction false} FieldsJoin(a: string, b: string)
    ensures Fields(a + " " + b) == Fields(a) + Fields(b)
    decreases |a|
  {
    var s := a + " " + b;
    if a == "" {
      assert s[1..] == b;
    } else if IsSpace(a[0]) {
      FieldsJoin(a[1..], b);
      assert s[1..] == a[1..] + " " + b;
    } else {
      var n := FieldLen(a);
      FieldLenJoin(a, b);
      FieldsJoin(a[n..], b);
      assert s[n..] == a[n..] + " " + b && s[..n] == a[..n];
    }
  }

  lemma {:induction false} FieldLenJoin(a: string, b: string)
    ensures FieldLen(a + " " + b) == FieldLen(a)
  {
    var s := a + " " + b;
    if a != "" {
      assert s[0] == a[0] && s[1..] == a[1..] + " " + b;
      FieldLenJoin(a[1..], b);
    }
  }

  lemma {:induction false} StrippedAppend(x: Lexicon, f: seq<string>, g: seq<string>)
    ensures Stripped(x, f + g) == Stripped(x, f) + Stripped(x, g)
  {
    if g == [] {
      assert f + g == f;
    } else {
      StrippedAppend(x, f, g[..|g| - 1]);
      assert (f + g)[..|f + g| - 1] == f + g[..|g| - 1];
    }
  }

  /** The wait depends on the end of the draft alone when that end is a hesitation, a number
      or an unfinished phrase: whatever was said before it does not matter. */
  lemma TailDecidesWait(x: Lexicon, before: string, tail: string, loc: Locale, d: Delays)
    requires x.lower(' ') == ' '
    requires var toks, p := Tokenize(x, tail), ProfileFor(x, loc);
             toks != [] && var last := toks[|toks| - 1];
                           last in p.hesitation || IsNumericToken(x, p, last) || last in p.incomplete
    ensures WaitForMs(x, before + " " + tail, loc, d) == WaitForMs(x, tail, loc, d)
  {
    TokensJoin(x, before, tail);
    hide Tokenize, ToLower, Fields, Stripped;
  }

  /** The tokens of a text that ends in ` tail` end in the tokens of the tail. */
  lemma TokensJoin(x: Lexicon, before: string, tail: string)
    requires x.lower(' ') == ' '
    ensures Tokenize(x, before + " " + tail) == Tokenize(x, before) + Tokenize(x, tail)
  {
    var a, b := ToLower(x, before), ToLower(x, tail);
    assert ToLower(x, before + " " + tail) == a + " " + b;
    FieldsJoin(a, b);
    StrippedAppend(x, Fields(a), Fields(b));
    hide Fields, Stripped;
  }
}
