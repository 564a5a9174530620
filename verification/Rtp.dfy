/** The RTP wire format of the external media leg: header, slin16 payload and sample rates. */
module Rtp {
  import opened Common

  type Byte = x: int | 0 <= x < 256
  type U16 = x: int | 0 <= x < 0x1_0000
  type U32 = x: int | 0 <= x < 0x1_0000_0000
  type Sample = x: int | -32768 <= x < 32768

  const HEADER_BYTES := 12
  const VERSION := 2
  const PAYLOAD_TYPE_L16 := 118
  const WIRE_SAMPLES := 320
  const WIRE_BYTES := 640
  const SAMPLES_PER_FRAME := 160

  datatype Packet = Packet(seqNo: U16, timestamp: U32, ssrc: U32, payload: seq<Byte>)

  datatype ParseError = TooShort | BadVersion | HasCsrc

  datatype Parsed = Ok(packet: Packet) | Err(error: ParseError)

  function Be16(hi: Byte, lo: Byte): U16 { 256 * hi + lo }

  function Be32(b: seq<Byte>): U32
    requires |b| == 4
  {
    var (b0: int, b1: int, b2: int, b3: int) := (b[0], b[1], b[2], b[3]);
    256 * (256 * (256 * b0 + b1) + b2) + b3
  }

  function Put16(x: U16): (b: seq<Byte>)
    ensures |b| == 2
  {
    [x / 256, x % 256]
  }

  function Put32(x: U32): (b: seq<Byte>)
    ensures |b| == 4
  {
    [x / 256 / 256 / 256, x / 256 / 256 % 256, x / 256 % 256, x % 256]
  }

  function Parse(d: seq<Byte>): Parsed {
    if |d| < HEADER_BYTES then Err(TooShort)
    else if d[0] / 64 != VERSION then Err(BadVersion)
    else if d[0] % 16 != 0 then Err(HasCsrc)
    else Ok(Packet(Be16(d[2], d[3]), Be32(d[4..8]), Be32(d[8..12]), d[HEADER_BYTES..]))
  }

  function Header(seqNo: U16, timestamp: U32, ssrc: U32): (h: seq<Byte>)
    ensures |h| == HEADER_BYTES
  {
    [64 * VERSION, PAYLOAD_TYPE_L16] + Put16(seqNo) + Put32(timestamp) + Put32(ssrc)
  }

  function Build(seqNo: U16, timestamp: U32, ssrc: U32, payload: seq<Byte>): seq<Byte> {
    Header(seqNo, timestamp, ssrc) + payload
  }

  lemma Be32Inverts(x: U32)
    ensures Be32(Put32(x)) == x
  {}

  lemma Put32Inverts(b: seq<Byte>)
    requires |b| == 4
    ensures Put32(Be32(b)) == b
  {}

  /** Parsing inverts building. */
  lemma ParseInvertsBuild(seqNo: U16, timestamp: U32, ssrc: U32, payload: seq<Byte>)
    ensures Parse(Build(seqNo, timestamp, ssrc, payload)) == Ok(Packet(seqNo, timestamp, ssrc, payload))
  {
    var d := Build(seqNo, timestamp, ssrc, payload);
    assert d[2..4] == Put16(seqNo) && d[2] == Put16(seqNo)[0] && d[3] == Put16(seqNo)[1];
    assert d[4..8] == Put32(timestamp);
    assert d[8..12] == Put32(ssrc);
    assert d[HEADER_BYTES..] == payload;
    Be32Inverts(timestamp);
    Be32Inverts(ssrc);
  }

  /** Building inverts parsing exactly for plain headers: no padding, extension or marker bit and
      the one payload type the sender uses. Every other accepted datagram loses those bits. */
  lemma BuildInvertsParseIff(d: seq<Byte>)
    requires Parse(d).Ok?
    ensures var p := Parse(d).packet;
            Build(p.seqNo, p.timestamp, p.ssrc, p.payload) == d <==> d[0] == 0x80 && d[1] == PAYLOAD_TYPE_L16
  {
    var p := Parse(d).packet;
    var b := Build(p.seqNo, p.timestamp, p.ssrc, p.payload);
    Put32Inverts(d[4..8]);
    Put32Inverts(d[8..12]);
    assert b[0] == 0x80 && b[1] == PAYLOAD_TYPE_L16;
    assert d == d[..2] + d[2..4] + d[4..8] + d[8..12] + d[12..];
    assert d[2..4] == Put16(p.seqNo);
    if d[0] == 0x80 && d[1] == PAYLOAD_TYPE_L16 {
      assert d[..2] == [0x80, PAYLOAD_TYPE_L16];
    }
  }

  /** The extension bit (RFC 3550, section 5.1) of a first header byte. */
  predicate ExtensionBit(b: Byte) { b / 16 % 2 == 1 }

  /** The comment promises to reject header extensions; the code looks at neither the extension
      nor the padding bit. A datagram is accepted exactly when it is long enough and its first
      byte is one of four. */
  lemma AcceptedFirstBytes(d: seq<Byte>)
    ensures Parse(d).Ok? <==> |d| >= HEADER_BYTES && d[0] in {0x80, 0x90, 0xA0, 0xB0}
  {
    if |d| >= HEADER_BYTES && d[0] / 64 == VERSION && d[0] % 16 == 0 {
      assert d[0] == 128 + 16 * (d[0] / 16 - 8);
      assert 8 <= d[0] / 16 < 12;
    }
  }

  /** Setting the extension bit of an accepted datagram changes nothing: the extension words end
      up in the payload. */
  lemma ExtensionIsTakenForPayload(d: seq<Byte>)
    requires Parse(d).Ok? && !ExtensionBit(d[0])
    ensures ExtensionBit(d[0] + 16) && Parse(d[0 := d[0] + 16]) == Parse(d)
  {
    AcceptedFirstBytes(d);
    var e := d[0 := d[0] + 16];
    assert e[4..8] == d[4..8] && e[8..12] == d[8..12] && e[12..] == d[12..];
  }

  // --- payload codec

  /** `uint16(s)` and back: two's complement. */
  function Unsigned(s: Sample): U16 { if s < 0 then s + 0x1_0000 else s }

  function Signed(u: U16): Sample { if u >= 0x8000 then u - 0x1_0000 else u }

  function Encode(samples: seq<Sample>): (p: seq<Byte>)
    ensures |p| == 2 * |samples|
  {
    if samples == [] then []
    else Encode(samples[..|samples| - 1]) + Put16(Unsigned(samples[|samples| - 1]))
  }

  /** An odd last byte is ignored. */
  function Decode(payload: seq<Byte>): (s: seq<Sample>)
    ensures |s| == |payload| / 2
  {
    seq(|payload| / 2, i requires 0 <= i < |payload| / 2 => Signed(Be16(payload[2 * i], payload[2 * i + 1])))
  }

  lemma {:induction false} EncodeAt(samples: seq<Sample>, i: nat)
    requires i < |samples|
    ensures Encode(samples)[2 * i] == Unsigned(samples[i]) / 256
    ensures Encode(samples)[2 * i + 1] == Unsigned(samples[i]) % 256
  {
    if i < |samples| - 1 {
      EncodeAt(samples[..|samples| - 1], i);
    }
  }

  lemma DecodeInvertsEncode(samples: seq<Sample>)
    ensures Decode(Encode(samples)) == samples
  {
    forall i | 0 <= i < |samples| ensures Decode(Encode(samples))[i] == samples[i] {
      EncodeAt(samples, i);
    }
  }

  /** A payload survives decoding and encoding exactly when its length is even. */
  lemma EncodeInvertsDecodeIff(payload: seq<Byte>)
    ensures Encode(Decode(payload)) == payload <==> |payload| % 2 == 0
  {
    var e := Encode(Decode(payload));
    if |payload| % 2 == 0 {
      forall j | 0 <= j < |payload| ensures e[j] == payload[j] {
        EncodeAt(Decode(payload), j / 2);
        assert j == 2 * (j / 2) || j == 2 * (j / 2) + 1;
      }
    }
  }

  method EncodePayload(samples: seq<Sample>) returns (payload: array<Byte>)
    ensures fresh(payload) && payload[..] == Encode(samples)
  {
    payload := new Byte[2 * |samples|];
    for i := 0 to |samples|
      invariant payload[..2 * i] == Encode(samples[..i])
    {
      var u := Unsigned(samples[i]);
      payload[2 * i], payload[2 * i + 1] := u / 256, u % 256;
      assert samples[..i + 1][..i] == samples[..i];
      assert payload[..2 * (i + 1)] == payload[..2 * i] + Put16(u);
    }
    assert samples[..|samples|] == samples && payload[..] == payload[..2 * |samples|];
  }

  method DecodePayload(payload: seq<Byte>) returns (samples: array<Sample>)
    ensures fresh(samples) && samples[..] == Decode(payload)
  {
    samples := new Sample[|payload| / 2];
    for i := 0 to samples.Length
      invariant forall j :: 0 <= j < i ==> samples[j] == Decode(payload)[j]
    {
      samples[i] := Signed(Be16(payload[2 * i], payload[2 * i + 1]));
    }
  }

  method BuildDatagram(seqNo: U16, timestamp: U32, ssrc: U32, payload: seq<Byte>) returns (out: array<Byte>)
    ensures fresh(out) && out[..] == Build(seqNo, timestamp, ssrc, payload)
  {
    hide Put16, Put32;
    out := new Byte[HEADER_BYTES + |payload|];
    out[0], out[1] := 64 * VERSION, PAYLOAD_TYPE_L16;
    ghost var h := [64 * VERSION, PAYLOAD_TYPE_L16];
    assert out[..2] == h;
    PutInto(out, 2, Put16(seqNo));
    assert out[..4] == h + Put16(seqNo);
    PutInto(out, 4, Put32(timestamp));
    assert out[..8] == h + Put16(seqNo) + Put32(timestamp);
    PutInto(out, 8, Put32(ssrc));
    assert out[..12] == Header(seqNo, timestamp, ssrc);
    PutInto(out, HEADER_BYTES, payload);
    assert out[..] == out[..12] + payload;
  }

  method PutInto(out: array<Byte>, at: nat, bytes: seq<Byte>)
    requires at + |bytes| <= out.Length
    modifies out
    ensures out[..] == old(out[..at]) + bytes + old(out[at + |bytes|..])
  {
    for i := 0 to |bytes|
      invariant out[..] == old(out[..at]) + bytes[..i] + old(out[at + i..])
    {
      out[at + i] := bytes[i];
    }
  }

  // --- sample rates

  /** Go's `(int32(a) + int32(b)) / 2`, which truncates toward zero. */
  function Average(a: Sample, b: Sample): (m: Sample)
    ensures Min(a, b) <= m <= Max(a, b)
  {
    if a + b >= 0 then (a + b) / 2 else -(-(a + b) / 2)
  }

  function Downsample(s: seq<Sample>): (r: seq<Sample>)
    ensures |r| == |s| / 2
  {
    seq(|s| / 2, i requires 0 <= i < |s| / 2 => Average(s[2 * i], s[2 * i + 1]))
  }

  function Upsample(s: seq<Sample>): (r: seq<Sample>)
    ensures |r| == 2 * |s|
  {
    seq(2 * |s|, j requires 0 <= j < 2 * |s| =>
      if j % 2 == 0 then s[j / 2] else Average(s[j / 2], if j / 2 + 1 < |s| then s[j / 2 + 1] else s[j / 2]))
  }

  /** Up and down again moves a sample at most a quarter of the way (rounded) to the next one,
      and keeps the last sample and every constant signal. */
  lemma RateRoundTrip(s: seq<Sample>, i: nat)
    requires i < |s|
    ensures var x: int, y: int, r: int := s[i], (if i + 1 < |s| then s[i + 1] else s[i]), Downsample(Upsample(s))[i];
            && Min(x, y) <= r <= Max(x, y)
            && 4 * Max(r - x, x - r) <= Max(y - x, x - y) + 6
  {
    var u := Upsample(s);
    assert u[2 * i] == s[i];
    assert (2 * i + 1) / 2 == i;
  }
}
