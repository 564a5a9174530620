/** The string operations of the turn machine: white space, trimming, joining.
    A string is a sequence of Unicode scalar values. */
module Text {

  /** White space in the sense of the Unicode White_Space property. */
  predicate IsSpace(c: char) {
    || '\t' <= c <= '\r' || c == ' ' || c == '\U{85}' || c == '\U{A0}' || c == '\U{1680}'
    || '\U{2000}' <= c <= '\U{200A}' || c == '\U{2028}' || c == '\U{2029}' || c == '\U{202F}'
    || c == '\U{205F}' || c == '\U{3000}'
  }

  function TrimLeft(s: string): string {
    if s != "" && IsSpace(s[0]) then TrimLeft(s[1..]) else s
  }

  function TrimRight(s: string): string {
    if s != "" && IsSpace(s[|s| - 1]) then TrimRight(s[..|s| - 1]) else s
  }

  function TrimSpace(s: string): string { TrimRight(TrimLeft(s)) }

  /** No white space at either end. */
  predicate Tidy(s: string) {
    s == "" || (!IsSpace(s[0]) && !IsSpace(s[|s| - 1]))
  }

  /** A non-empty text that trimming leaves alone. */
  predicate Solid(s: string) { s != "" && Tidy(s) }

  lemma {:induction false} TrimLeftSuffix(s: string)
    ensures TrimLeft(s) == "" || !IsSpace(TrimLeft(s)[0])
    ensures exists k: nat :: k <= |s| && TrimLeft(s) == s[k..]
    decreases |s|
  {
    if s != "" && IsSpace(s[0]) {
      TrimLeftSuffix(s[1..]);
      var k: nat :| k <= |s[1..]| && TrimLeft(s[1..]) == s[1..][k..];
      assert s[1..][k..] == s[k + 1..];
    } else {
      assert s == s[0..];
    }
  }

  lemma {:induction false} TrimRightPrefix(s: string)
    ensures TrimRight(s) == "" || !IsSpace(TrimRight(s)[|TrimRight(s)| - 1])
    ensures exists k: nat :: k <= |s| && TrimRight(s) == s[..k]
    decreases |s|
  {
    if s != "" && IsSpace(s[|s| - 1]) {
      TrimRightPrefix(s[..|s| - 1]);
      var k: nat :| k <= |s| - 1 && TrimRight(s[..|s| - 1]) == s[..|s| - 1][..k];
      assert s[..|s| - 1][..k] == s[..k];
    } else {
      assert s == s[..|s|];
    }
  }

  lemma TrimSpaceTidy(s: string)
    ensures Tidy(TrimSpace(s))
    ensures Tidy(s) ==> TrimSpace(s) == s
  {
    TrimLeftSuffix(s);
    TrimRightPrefix(TrimLeft(s));
  }

  /** `strings.Join(parts, " ")`. */
  function Join(parts: seq<string>): string {
    if parts == [] then ""
    else if |parts| == 1 then parts[0]
    else parts[0] + " " + Join(parts[1..])
  }

  lemma {:induction false} JoinSnoc(parts: seq<string>, last: string)
    ensures Join(parts + [last]) == if parts == [] then last else Join(parts) + " " + last
  {
    if parts != [] {
      JoinSnoc(parts[1..], last);
      assert (parts + [last])[1..] == parts[1..] + [last];
    }
  }

  lemma {:induction false} JoinSolid(parts: seq<string>)
    requires forall p :: p in parts ==> Solid(p)
    ensures Tidy(Join(parts)) && (Join(parts) == "" <==> parts == [])
  {
    if parts != [] {
      assert Solid(parts[0]);
    }
    if |parts| > 1 {
      JoinSolid(parts[1..]);
      assert Join(parts)[|Join(parts)| - 1] == Join(parts[1..])[|Join(parts[1..])| - 1];
    }
  }

  /** Every text of `pieces` occurs in `whole`, in this order and without overlap. */
  ghost predicate Embeds(pieces: seq<string>, whole: string) {
    if pieces == [] then true
    else exists i: nat :: EmbedsAt(pieces, whole, i)
  }

  ghost predicate EmbedsAt(pieces: seq<string>, whole: string, i: nat)
    requires pieces != []
  {
    && i + |pieces[0]| <= |whole|
    && whole[i..i + |pieces[0]|] == pieces[0]
    && Embeds(pieces[1..], whole[i + |pieces[0]|..])
  }

  lemma {:induction false} EmbedsExtend(pieces: seq<string>, whole: string, more: string)
    requires Embeds(pieces, whole)
    ensures Embeds(pieces, whole + more)
  {
    if pieces != [] {
      var i: nat :| EmbedsAt(pieces, whole, i);
      var rest := i + |pieces[0]|;
      EmbedsExtend(pieces[1..], whole[rest..], more);
      assert (whole + more)[rest..] == whole[rest..] + more;
      assert (whole + more)[i..rest] == whole[i..rest];
      assert EmbedsAt(pieces, whole + more, i);
    }
  }

  lemma {:induction false} EmbedsSnoc(pieces: seq<string>, whole: string, gap: string, piece: string)
    requires Embeds(pieces, whole)
    ensures Embeds(pieces + [piece], whole + gap + piece)
  {
    var all := whole + gap + piece;
    if pieces == [] {
      var i := |whole| + |gap|;
      assert all[i..i + |piece|] == piece;
      assert EmbedsAt([piece], all, i);
      assert pieces + [piece] == [piece];
    } else {
      var i: nat :| EmbedsAt(pieces, whole, i);
      var rest := i + |pieces[0]|;
      EmbedsSnoc(pieces[1..], whole[rest..], gap, piece);
      assert all[rest..] == whole[rest..] + gap + piece;
      assert all[i..rest] == whole[i..rest];
      assert (pieces + [piece])[1..] == pieces[1..] + [piece];
      assert EmbedsAt(pieces + [piece], all, i);
    }
  }
}
