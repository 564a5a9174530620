/** UTF-8 bytes of a text and the offsets at which its characters begin. */
module Bytes {
  /** UTF-8 of one code point (RFC 3629, section 3). */
  function Utf8(ch: char): (b: seq<int>)
    ensures 1 <= |b| <= 4
  {
    var c := ch as int;
    if c < 0x80 then [c]
    else if c < 0x800 then [0xC0 + c / 64, 0x80 + c % 64]
    else if c < 0x1_0000 then [0xE0 + c / 4096, 0x80 + c / 64 % 64, 0x80 + c % 64]
    else [0xF0 + c / 262144, 0x80 + c / 4096 % 64, 0x80 + c / 64 % 64, 0x80 + c % 64]
  }

  function Encode(text: string): seq<int> {
    if text == "" then [] else Encode(text[..|text| - 1]) + Utf8(text[|text| - 1])
  }

  lemma {:induction false} EncodeConcat(a: string, b: string)
    ensures Encode(a + b) == Encode(a) + Encode(b)
  {
    hide Utf8;
    if b == "" {
      assert a + b == a;
    } else {
      assert (a + b)[..|a + b| - 1] == a + b[..|b| - 1];
      EncodeConcat(a, b[..|b| - 1]);
    }
  }

  lemma {:induction false} EncodeGrows(a: string)
    ensures |a| <= |Encode(a)|
  {
    hide Utf8;
    if a != "" { EncodeGrows(a[..|a| - 1]); }
  }

  function ByteAt(text: string, i: nat): nat
    requires i <= |text|
  {
    |Encode(text[..i])|
  }

  /** The byte offsets of a span cut exactly the bytes of its characters out of the text. */
  lemma ByteOffsetsCutTheSpan(text: string, start: nat, end: nat)
    requires start <= end <= |text|
    ensures ByteAt(text, start) <= ByteAt(text, end) <= |Encode(text)|
    ensures Encode(text)[ByteAt(text, start)..ByteAt(text, end)] == Encode(text[start..end])
    ensures end - start <= ByteAt(text, end) - ByteAt(text, start)
  {
    var a, b, c := text[..start], text[start..end], text[end..];
    assert a + b == text[..end] && a + b + c == text;
    EncodeConcat(a, b);
    EncodeConcat(a + b, c);
    EncodeGrows(b);
  }

  lemma ByteOffsetsGrow(text: string, i: nat, j: nat)
    requires i <= j <= |text|
    ensures ByteAt(text, i) <= ByteAt(text, j)
  {
    ByteOffsetsCutTheSpan(text, i, j);
  }
}
