/** One external media session: unwrapping of inbound 16-bit sequence numbers, and the bounded
    outbound queue that is paced onto the wire. */
module ExternalMedia {
  import opened Common
  import opened Rtp

  // --- inbound

  datatype Frame = Frame(seqNo: nat, samples: seq<Sample>)

  datatype Inbound = Inbound(started: bool, lastSeq: U16, frameSeq: nat)

  const SILENT := Inbound(false, 0, 0)

  function Delta(i: Inbound, seqNo: U16): U16 {
    var (x: int, y: int) := (seqNo, i.lastSeq);
    (x - y) % 0x1_0000
  }

  predicate Accepts(i: Inbound, seqNo: U16) {
    i.started ==> 0 < Delta(i, seqNo) <= 0x8000
  }

  function Arrive(i: Inbound, seqNo: U16): Inbound {
    if !Accepts(i, seqNo) then i
    else Inbound(true, seqNo, if i.started then i.frameSeq + Delta(i, seqNo) else i.frameSeq)
  }

  /** A packet of another size changes nothing. */
  function Deliver(i: Inbound, p: Packet): (Inbound, Option<Frame>) {
    if |p.payload| != WIRE_BYTES || !Accepts(i, p.seqNo) then (i, None)
    else
      var next := Arrive(i, p.seqNo);
      (next, Some(Frame(next.frameSeq, Downsample(Decode(p.payload)))))
  }

  /** The wire shows a true sequence number modulo 2^16. */
  function Wire(t: int): U16 { t % 0x1_0000 }

  function Run(ts: seq<int>): Inbound {
    if ts == [] then SILENT else Arrive(Run(ts[..|ts| - 1]), Wire(ts[|ts| - 1]))
  }

  function Newest(ts: seq<int>): int
    requires ts != []
  {
    if |ts| == 1 then ts[0] else Max(Newest(ts[..|ts| - 1]), ts[|ts| - 1])
  }

  ghost predicate NearAt(ts: seq<int>, i: nat)
    requires 1 <= i < |ts|
  {
    -32767 <= ts[i] - Newest(ts[..i]) <= 32768
  }

  /** No packet is further than half the number space from the newest one before it. */
  ghost predicate Near(ts: seq<int>) { forall i: nat :: 1 <= i < |ts| ==> NearAt(ts, i) }

  /** One step is right about a packet `d` numbers ahead: it accepts exactly what is newer, and
      advances by the true distance. */
  ghost predicate Exact(i: Inbound, last: int, t: int) {
    && (Accepts(i, Wire(t)) <==> t > last)
    && (Accepts(i, Wire(t)) ==> Arrive(i, Wire(t)).frameSeq == i.frameSeq + (t - last))
  }

  lemma DeltaIsDistance(i: Inbound, last: int, t: int)
    requires i.lastSeq == Wire(last)
    ensures Delta(i, Wire(t)) == (t - last) % 0x1_0000
  {
    var m := 0x1_0000;
    assert t == m * (t / m) + t % m && last == m * (last / m) + last % m;
    ModShift(t % m - last % m, t / m - last / m, m);
  }

  lemma ModShift(x: int, k: int, m: int)
    requires m == 0x1_0000
    ensures (x + m * k) % m == x % m
  {}

  /** When a step is right: a newer packet at most 32768 ahead; an older one whose distance back,
      modulo 2^16, is 0 or at most 32767. The step is wrong about every other packet. */
  lemma StepExactIff(i: Inbound, last: int, t: int)
    requires i.started && i.lastSeq == Wire(last)
    ensures Exact(i, last, t) <==> (if t > last then t - last <= 32768 else (last - t) % 0x1_0000 <= 32767)
  {
    DeltaIsDistance(i, last, t);
    var d, m := t - last, 0x1_0000;
    assert d == m * (d / m) + d % m && -d == m * (-d / m) + -d % m;
    assert d % m == 0 <==> -d % m == 0;
    if d % m != 0 {
      ModShift(m - d % m, -(d / m) - 1, m);
      assert -d == (m - d % m) + m * (-(d / m) - 1);
      assert -d % m == m - d % m;
    }
    if d > 0 && d % m == d {
      assert d < m;
    }
  }

  /** So a packet exactly half the number space late is taken for newer, and moves the numbering on
      by as much. */
  lemma LatePacketTakenForNewer()
    ensures !Near([40000, 7232]) && Accepts(Run([40000]), Wire(7232)) && Run([40000, 7232]).frameSeq == 32768
  {
    var ts := [40000, 7232];
    assert ts[..1] == [40000] && [40000][..0] == [];
    assert Run([40000]) == Arrive(SILENT, Wire(40000));
    assert !NearAt(ts, 1);
  }

  /** Across any number of wraps: while no packet strays half the number space from the newest
      one, a packet is accepted exactly when it is newer, and the frame number is the true
      distance from the first packet. */
  lemma {:induction false} UnwrapsExactly(ts: seq<int>)
    requires ts != [] && Near(ts)
    ensures var r := Run(ts);
            r.started && r.lastSeq == Wire(Newest(ts)) && r.frameSeq == Newest(ts) - ts[0]
    ensures forall i :: 1 <= i < |ts| ==> (Accepts(Run(ts[..i]), Wire(ts[i])) <==> ts[i] > Newest(ts[..i]))
  {
    if |ts| == 1 {
      assert ts[..0] == [];
    } else {
      var u, t := ts[..|ts| - 1], ts[|ts| - 1];
      assert ts == u + [t];
      NearFront(ts);
      UnwrapsExactly(u);
      hide Run, Arrive, Accepts, Newest, NearAt, Wire;
      UnwrapsNext(u, t);
      forall i | 1 <= i < |ts| ensures Accepts(Run(ts[..i]), Wire(ts[i])) <==> ts[i] > Newest(ts[..i]) {
        assert i < |u| ==> ts[..i] == u[..i] && ts[i] == u[i];
        assert i == |u| ==> ts[..i] == u && ts[i] == t;
      }
    }
  }

  lemma NearFront(ts: seq<int>)
    requires |ts| > 1 && Near(ts)
    ensures Near(ts[..|ts| - 1]) && -32767 <= ts[|ts| - 1] - Newest(ts[..|ts| - 1]) <= 32768
  {
    var u := ts[..|ts| - 1];
    assert NearAt(ts, |u|);
    hide Newest;
    forall i: nat | 1 <= i < |u| ensures NearAt(u, i) { assert NearAt(ts, i) && ts[..i] == u[..i]; }
  }

  lemma UnwrapsNext(u: seq<int>, t: int)
    requires u != [] && -32767 <= t - Newest(u) <= 32768
    requires Run(u).started && Run(u).lastSeq == Wire(Newest(u)) && Run(u).frameSeq == Newest(u) - u[0]
    ensures var r, ts := Run(u + [t]), u + [t];
            r.started && r.lastSeq == Wire(Newest(ts)) && r.frameSeq == Newest(ts) - ts[0]
    ensures Accepts(Run(u), Wire(t)) <==> t > Newest(u)
  {
    var last := Newest(u);
    StepExactIff(Run(u), last, t);
    assert t <= last ==> (last - t) % 0x1_0000 == last - t;
    assert (u + [t])[..|u|] == u;
    hide Delta;
  }

  // --- outbound

  const OUT_QUEUE_MAX := 250

  function PadToFrame(chunk: seq<Sample>): (r: seq<Sample>)
    requires |chunk| <= SAMPLES_PER_FRAME
    ensures |r| == SAMPLES_PER_FRAME && chunk <= r
  {
    chunk + seq(SAMPLES_PER_FRAME - |chunk|, i => 0)
  }

  function Payload(chunk: seq<Sample>): (p: seq<Byte>)
    requires |chunk| <= SAMPLES_PER_FRAME
    ensures |p| == WIRE_BYTES
  {
    Encode(Upsample(PadToFrame(chunk)))
  }

  /** The 20 ms payloads of a write, the last one padded with silence. */
  function Payloads(samples: seq<Sample>): (ps: seq<seq<Byte>>)
    ensures |ps| == (|samples| + SAMPLES_PER_FRAME - 1) / SAMPLES_PER_FRAME
    ensures forall p :: p in ps ==> |p| == WIRE_BYTES
  {
    if samples == [] then []
    else
      var n := Min(SAMPLES_PER_FRAME, |samples|);
      [Payload(samples[..n])] + Payloads(samples[n..])
  }

  lemma PayloadsFrom(samples: seq<Sample>, start: nat)
    requires start < |samples|
    ensures var end := Min(start + SAMPLES_PER_FRAME, |samples|);
            var ps, rest := Payloads(samples[start..]), Payloads(samples[end..]);
            ps != [] && ps[0] == Payload(samples[start..end]) && ps[1..] == rest
  {
    hide Payload;
    var end, rest := Min(start + SAMPLES_PER_FRAME, |samples|), samples[start..];
    assert rest[..end - start] == samples[start..end] && rest[end - start..] == samples[end..];
  }

  /** Little-endian PCM16; an odd last byte is ignored. */
  function FromPcm(pcm: seq<Byte>): seq<Sample> {
    seq(|pcm| / 2, i requires 0 <= i < |pcm| / 2 => Signed(Be16(pcm[2 * i + 1], pcm[2 * i])))
  }

  datatype Outbound = Outbound(out: seq<seq<Byte>>, closed: bool, sendSeq: U16, sendTs: U32)

  datatype Queued = Queued(out: seq<seq<Byte>>, ok: bool)

  /** What fits is queued, and the rest of the write is refused. */
  function Enqueue(out: seq<seq<Byte>>, ps: seq<seq<Byte>>): Queued
    decreases |ps|
  {
    if ps == [] then Queued(out, true)
    else if |out| >= OUT_QUEUE_MAX then Queued(out, false)
    else Enqueue(out + [ps[0]], ps[1..])
  }

  lemma {:induction false} EnqueuesWhatFits(out: seq<seq<Byte>>, ps: seq<seq<Byte>>)
    requires |out| <= OUT_QUEUE_MAX
    ensures var k := Min(|ps|, OUT_QUEUE_MAX - |out|);
            Enqueue(out, ps) == Queued(out + ps[..k], k == |ps|)
    decreases |ps|
  {
    if ps == [] {
      assert out + ps[..0] == out;
    } else if |out| < OUT_QUEUE_MAX {
      EnqueuesWhatFits(out + [ps[0]], ps[1..]);
      var k := Min(|ps|, OUT_QUEUE_MAX - |out|);
      assert out + [ps[0]] + ps[1..][..k - 1] == out + ps[..k];
    } else {
      assert out + ps[..0] == out;
    }
  }

  datatype Op = Write(pcm: seq<Byte>) | Flush | Tick | Close

  /** The session with all it ever queued, and the positions of what it sent. */
  datatype Line = Line(state: Outbound, queued: seq<seq<Byte>>, sent: seq<nat>, wire: seq<seq<Byte>>)

  const FRESH := Line(Outbound([], false, 0, 0), [], [], [])

  function Step(l: Line, op: Op, ssrc: U32): Line
    requires |l.state.out| <= |l.queued|
  {
    var s := l.state;
    match op
    case Write(pcm) =>
      if s.closed then l
      else
        var q := Enqueue(s.out, Payloads(FromPcm(pcm))).out;
        EnqueueExtends(s.out, Payloads(FromPcm(pcm)));
        l.(state := s.(out := q), queued := l.queued + q[|s.out|..])
    case Flush => l.(state := s.(out := []))
    case Close => l.(state := s.(out := [], closed := true))
    case Tick =>
      if s.closed || s.out == [] then l
      else
        var (x: int, y: int) := (s.sendSeq, s.sendTs);
        Line(Outbound(s.out[1..], false, (x + 1) % 0x1_0000, (y + WIRE_SAMPLES) % 0x1_0000_0000), l.queued,
             l.sent + [|l.queued| - |s.out|], l.wire + [Build(s.sendSeq, s.sendTs, ssrc, s.out[0])])
  }

  lemma {:induction false} EnqueueExtends(out: seq<seq<Byte>>, ps: seq<seq<Byte>>)
    ensures out <= Enqueue(out, ps).out
    ensures forall p :: p in Enqueue(out, ps).out ==> p in out || p in ps
    decreases |ps|
  {
    if ps != [] && |out| < OUT_QUEUE_MAX {
      EnqueueExtends(out + [ps[0]], ps[1..]);
    }
  }

  function RunLine(ops: seq<Op>, ssrc: U32): (l: Line)
    ensures |l.state.out| <= |l.queued|
  {
    if ops == [] then FRESH
    else
      var before := RunLine(ops[..|ops| - 1], ssrc);
      Step(before, ops[|ops| - 1], ssrc)
  }

  /** The position of the oldest queued payload. */
  function Head(l: Line): int { |l.queued| - |l.state.out| }

  ghost predicate Rising(s: seq<nat>, below: int) {
    (forall i, j :: 0 <= i < j < |s| ==> s[i] < s[j]) && forall i :: 0 <= i < |s| ==> s[i] < below
  }

  ghost predicate Numbered(l: Line, ssrc: U32, n: nat)
    requires n < |l.wire| == |l.sent| && l.sent[n] < |l.queued|
  {
    l.wire[n] == Build(n % 0x1_0000, WIRE_SAMPLES * n % 0x1_0000_0000, ssrc, l.queued[l.sent[n]])
  }

  /** The queue is the end of what was written, at most 5 s of it; what went out did so once, in
      writing order, numbered 0, 1, 2, … and 20 ms apart. */
  ghost predicate Fifo(l: Line, ssrc: U32) {
    && |l.state.out| <= OUT_QUEUE_MAX && 0 <= Head(l) && l.state.out == l.queued[Head(l)..]
    && Rising(l.sent, Head(l))
    && |l.wire| == |l.sent|
    && (forall p :: p in l.queued ==> |p| == WIRE_BYTES)
    && l.state.sendSeq == |l.sent| % 0x1_0000
    && l.state.sendTs == WIRE_SAMPLES * |l.sent| % 0x1_0000_0000
    && forall n: nat :: n < |l.sent| ==> Numbered(l, ssrc, n)
  }

  lemma TickNumbers(n: nat)
    ensures (n % 0x1_0000 + 1) % 0x1_0000 == (n + 1) % 0x1_0000
    ensures (WIRE_SAMPLES * n % 0x1_0000_0000 + WIRE_SAMPLES) % 0x1_0000_0000 == WIRE_SAMPLES * (n + 1) % 0x1_0000_0000
  {
    AddUnder(n, 1, 0x1_0000);
    AddUnder(WIRE_SAMPLES * n, WIRE_SAMPLES, 0x1_0000_0000);
  }

  lemma AddUnder(x: nat, d: nat, m: nat)
    requires m == 0x1_0000 || m == 0x1_0000_0000
    ensures (x % m + d) % m == (x + d) % m
  {
    assert x == m * (x / m) + x % m;
  }

  lemma AddedFifo(l: Line, ps: seq<seq<Byte>>, ssrc: U32)
    requires Fifo(l, ssrc) && |l.state.out| + |ps| <= OUT_QUEUE_MAX
    requires forall p :: p in ps ==> |p| == WIRE_BYTES
    ensures Fifo(l.(state := l.state.(out := l.state.out + ps), queued := l.queued + ps), ssrc)
  {
    var r := l.(state := l.state.(out := l.state.out + ps), queued := l.queued + ps);
    assert r.state.out == r.queued[Head(r)..];
    forall n: nat | n < |r.sent| ensures Numbered(r, ssrc, n) {
      assert Numbered(l, ssrc, n) && r.queued[l.sent[n]] == l.queued[l.sent[n]];
    }
  }

  lemma WriteFifo(l: Line, pcm: seq<Byte>, ssrc: U32)
    requires Fifo(l, ssrc) && !l.state.closed
    ensures Fifo(Step(l, Write(pcm), ssrc), ssrc)
  {
    var out, ps := l.state.out, Payloads(FromPcm(pcm));
    var more := ps[..Min(|ps|, OUT_QUEUE_MAX - |out|)];
    EnqueuesWhatFits(out, ps);
    AddedFifo(l, more, ssrc);
    hide Fifo, Payloads, FromPcm, Enqueue;
    assert (out + more)[|out|..] == more;
  }

  lemma TickFifo(l: Line, ssrc: U32)
    requires Fifo(l, ssrc)
    ensures Fifo(Step(l, Tick, ssrc), ssrc)
  {
    hide Build;
    var r := Step(l, Tick, ssrc);
    if r != l {
      TickNumbers(|l.sent|);
      assert l.state.out[1..] == l.queued[Head(l) + 1..];
      forall n: nat | n < |r.sent| ensures Numbered(r, ssrc, n) {
        if n < |l.sent| { assert Numbered(l, ssrc, n); }
      }
    }
  }

  lemma CutFifo(l: Line, op: Op, ssrc: U32)
    requires Fifo(l, ssrc) && (op.Flush? || op.Close?)
    ensures Fifo(Step(l, op, ssrc), ssrc)
  {
    var r := Step(l, op, ssrc);
    forall n: nat | n < |r.sent| ensures Numbered(r, ssrc, n) { assert Numbered(l, ssrc, n); }
  }

  lemma {:induction false} OutboundIsFifo(ops: seq<Op>, ssrc: U32)
    ensures Fifo(RunLine(ops, ssrc), ssrc)
  {
    if ops != [] {
      var l, op := RunLine(ops[..|ops| - 1], ssrc), ops[|ops| - 1];
      OutboundIsFifo(ops[..|ops| - 1], ssrc);
      hide Fifo, Step;
      match op
      case Write(pcm) => if l.state.closed { SameWhenClosed(l, pcm, ssrc); } else { WriteFifo(l, pcm, ssrc); }
      case Tick => TickFifo(l, ssrc);
      case _ => CutFifo(l, op, ssrc);
    }
  }

  lemma SameWhenClosed(l: Line, pcm: seq<Byte>, ssrc: U32)
    requires l.state.closed && |l.state.out| <= |l.queued|
    ensures Step(l, Write(pcm), ssrc) == l
  {}

  /** `after` only goes on from `before`: nothing that had left the queue comes back. */
  ghost predicate GoesOn(before: Line, after: Line) {
    && before.sent <= after.sent && before.queued <= after.queued
    && Head(before) <= Head(after)
    && forall n :: |before.sent| <= n < |after.sent| ==> after.sent[n] >= Head(before)
  }

  lemma StepGoesOn(l: Line, op: Op, ssrc: U32)
    requires |l.state.out| <= |l.queued|
    ensures GoesOn(l, Step(l, op, ssrc))
  {
    hide Payloads, FromPcm, Build, Enqueue;
    if op.Write? {
      EnqueueExtends(l.state.out, Payloads(FromPcm(op.pcm)));
    }
  }

  lemma {:induction false} RunGoesOn(ops: seq<Op>, more: seq<Op>, ssrc: U32)
    ensures GoesOn(RunLine(ops, ssrc), RunLine(ops + more, ssrc))
  {
    hide Step;
    if more == [] {
      assert ops + more == ops;
    } else {
      var fewer, all := more[..|more| - 1], ops + more;
      assert all[..|all| - 1] == ops + fewer;
      RunGoesOn(ops, fewer, ssrc);
      StepGoesOn(RunLine(ops + fewer, ssrc), more[|more| - 1], ssrc);
    }
  }

  /** The barge-in cut: nothing that was queued before a flush goes out after it. */
  lemma FlushCuts(ops: seq<Op>, more: seq<Op>, ssrc: U32)
    ensures var before, after := RunLine(ops, ssrc), RunLine(ops + [Flush] + more, ssrc);
            && before.sent <= after.sent
            && forall n :: |before.sent| <= n < |after.sent| ==> after.sent[n] >= |before.queued|
  {
    var flushed := ops + [Flush];
    assert flushed[..|flushed| - 1] == ops;
    RunGoesOn(flushed, more, ssrc);
  }

  // --- from one session to another

  datatype Heard = Heard(inbound: Inbound, frames: seq<Frame>)

  /** Everything an undisturbed peer makes of the datagrams. */
  function Receive(ds: seq<seq<Byte>>): Heard {
    if ds == [] then Heard(SILENT, [])
    else
      var h, p := Receive(ds[..|ds| - 1]), Parse(ds[|ds| - 1]);
      if p.Err? || p.packet.payload == [] then h
      else
        var (i, f) := Deliver(h.inbound, p.packet);
        Heard(i, if f.Some? then h.frames + [f.value] else h.frames)
  }

  /** What one session sends, the other hears: frame `n` carries number `n`, however often the
      16-bit counter wrapped, and the samples of the `n`-th payload sent. */
  lemma {:induction false} PeerHearsWhatWasSent(l: Line, ssrc: U32, n: nat)
    requires Fifo(l, ssrc) && n <= |l.wire|
    ensures var h := Receive(l.wire[..n]);
            && |h.frames| == n
            && (forall i :: 0 <= i < n ==> h.frames[i] == Frame(i, Downsample(Decode(l.queued[l.sent[i]]))))
            && h.inbound == After(n)
  {
    hide Decode, Downsample, Deliver, Parse, Build;
    if n == 0 {
      assert l.wire[..0] == [];
    } else {
      hide Receive, After;
      var m := n - 1;
      PeerHearsWhatWasSent(l, ssrc, m);
      SentAt(l, ssrc, m);
      hide Fifo;
      HearsNext(m, ssrc, l.queued[l.sent[m]]);
      ReceiveNext(l.wire, m);
    }
  }

  lemma SentAt(l: Line, ssrc: U32, m: nat)
    requires Fifo(l, ssrc) && m < |l.wire|
    ensures |l.wire| == |l.sent| && l.sent[m] < |l.queued| && |l.queued[l.sent[m]]| == WIRE_BYTES
    ensures l.wire[m] == Build(m % 0x1_0000, WIRE_SAMPLES * m % 0x1_0000_0000, ssrc, l.queued[l.sent[m]])
  {
    hide Build;
    assert Numbered(l, ssrc, m) && l.queued[l.sent[m]] in l.queued;
  }

  lemma ReceiveNext(ds: seq<seq<Byte>>, m: nat)
    requires m < |ds| && Parse(ds[m]).Ok? && Parse(ds[m]).packet.payload != []
    ensures var h := Receive(ds[..m]);
            var (i, f) := Deliver(h.inbound, Parse(ds[m]).packet);
            Receive(ds[..m + 1]) == Heard(i, if f.Some? then h.frames + [f.value] else h.frames)
  {
    hide Parse, Deliver;
    assert ds[..m + 1][..m] == ds[..m];
  }

  /** The inbound state after datagrams 0 to n - 1. */
  function After(n: nat): Inbound {
    if n == 0 then SILENT else Inbound(true, (n - 1) % 0x1_0000, n - 1)
  }

  lemma HearsNext(m: nat, ssrc: U32, p: seq<Byte>)
    requires |p| == WIRE_BYTES
    ensures var d := Parse(Build(m % 0x1_0000, WIRE_SAMPLES * m % 0x1_0000_0000, ssrc, p));
            && d.Ok? && d.packet.payload == p
            && Deliver(After(m), d.packet) == (After(m + 1), Some(Frame(m, Downsample(Decode(p)))))
  {
    ParseInvertsBuild(m % 0x1_0000, WIRE_SAMPLES * m % 0x1_0000_0000, ssrc, p);
    NextIsNewer(After(m), m);
    hide Decode, Downsample, Parse, Build;
  }

  lemma NextIsNewer(i: Inbound, m: nat)
    requires if m > 0 then i == Inbound(true, (m - 1) % 0x1_0000, m - 1) else i == SILENT
    ensures Accepts(i, m % 0x1_0000) && Arrive(i, m % 0x1_0000) == Inbound(true, m % 0x1_0000, m)
  {
    if m > 0 { DeltaIsDistance(i, m - 1, m); }
  }

  // --- the object

  const FRAMES_CAPACITY := 64

  class MediaSession {
    const ssrc: U32
    var frames: seq<Frame>
    var started: bool
    var lastSeq: U16
    var frameSeq: nat
    var out: seq<seq<Byte>>
    var closed: bool
    var sendSeq: U16
    var sendTs: U32

    ghost function In(): Inbound
      reads this
    {
      Inbound(started, lastSeq, frameSeq)
    }

    ghost function Out(): Outbound
      reads this
    {
      Outbound(out, closed, sendSeq, sendTs)
    }

    constructor (ssrc: U32)
      ensures In() == SILENT && Out() == FRESH.state && frames == [] && this.ssrc == ssrc
    {
      this.ssrc := ssrc;
      started, lastSeq, frameSeq, frames := false, 0, 0, [];
      out, closed, sendSeq, sendTs := [], false, 0, 0;
    }

    /** A closed session and a stalled consumer lose the frame, but not the numbering. */
    method DeliverPacket(p: Packet)
      modifies this`started, this`lastSeq, this`frameSeq, this`frames
      ensures In() == Deliver(old(In()), p).0
      ensures var f := Deliver(old(In()), p).1;
              frames == if f.Some? && !closed && |old(frames)| < FRAMES_CAPACITY
                        then old(frames) + [f.value] else old(frames)
    {
      if |p.payload| != WIRE_BYTES {
        return;
      }
      if !started {
        started := true;
      } else {
        var (x: int, y: int) := (p.seqNo, lastSeq);
        var delta := (x - y) % 0x1_0000;
        if delta == 0 || delta > 0x8000 {
          return;
        }
        frameSeq := frameSeq + delta;
      }
      lastSeq := p.seqNo;
      var frame := Frame(frameSeq, Downsample(Decode(p.payload)));
      if closed {
        return;
      }
      if |frames| < FRAMES_CAPACITY {
        frames := frames + [frame];
      }
    }

    method WritePcm(pcm: seq<Byte>) returns (ok: bool)
      modifies this`out
      ensures old(closed) ==> !ok && out == old(out)
      ensures !old(closed) ==> Queued(out, ok) == Enqueue(old(out), Payloads(FromPcm(pcm)))
    {
      var samples := FromPcm(pcm);
      if closed {
        return false;
      }
      var start := 0;
      hide Payload, FromPcm;
      while start < |samples|
        invariant 0 <= start <= |samples|
        invariant Enqueue(out, Payloads(samples[start..])) == Enqueue(old(out), Payloads(samples))
      {
        var end := Min(start + SAMPLES_PER_FRAME, |samples|);
        PayloadsFrom(samples, start);
        if |out| >= OUT_QUEUE_MAX {
          return false;
        }
        out := out + [Payload(samples[start..end])];
        start := end;
      }
      return true;
    }

    method FlushQueue()
      modifies this`out
      ensures Out() == old(Out()).(out := [])
    {
      out := [];
    }

    method CloseSession()
      modifies this`out, this`closed
      ensures Out() == old(Out()).(out := [], closed := true)
    {
      closed := true;
      out := [];
    }

    method NextPayload() returns (p: Option<seq<Byte>>)
      modifies this`out
      ensures p == if old(out) == [] then None else Some(old(out)[0])
      ensures out == if old(out) == [] then [] else old(out)[1..]
    {
      if out == [] {
        return None;
      }
      p := Some(out[0]);
      out := out[1..];
    }

    /** One tick of the sender. */
    method SendNext() returns (datagram: Option<seq<Byte>>)
      requires !closed
      modifies this`out, this`sendSeq, this`sendTs
      ensures var before := Line(old(Out()), old(out), [], []);
              var after := Step(before, Tick, ssrc);
              Out() == after.state && datagram == if after.wire == [] then None else Some(after.wire[0])
    {
      var p := NextPayload();
      if p.None? {
        return None;
      }
      var bytes := BuildDatagram(sendSeq, sendTs, ssrc, p.value);
      datagram := Some(bytes[..]);
      var (x: int, y: int) := (sendSeq, sendTs);
      sendSeq := (x + 1) % 0x1_0000;
      sendTs := (y + WIRE_SAMPLES) % 0x1_0000_0000;
    }
  }
}
