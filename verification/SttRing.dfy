/** The speech-to-text ring: every frame is buffered, replayed after a reconnect, and evicted
    only when the ring is full. The outside world answers dial, send and sleep number `i` as
    `Env` says. */
module SttRing {
  import opened Common

  datatype Env = Env(dialOk: nat -> bool, sendOk: nat -> bool, sleepOk: nat -> bool)

  /** `providers` factories in fallback order. The source slices an empty buffer, and panics,
      when the capacity is below 1. */
  datatype Config = Config(providers: nat, capacity: nat, env: Env) {
    ghost predicate Valid() { capacity >= 1 }
  }

  /** What was asked of the outside world so far. */
  datatype Work = Work(dials: nat, sends: nat, sleeps: nat, sleptMs: nat)

  /** Frames are known by their position in the input. */
  datatype Ring<F> = Ring(input: seq<F>, buf: seq<F>, connected: bool, acked: seq<nat>, evicted: seq<nat>, work: Work)

  datatype Outcome = Sent | Unavailable | Interrupted | ReplayFailed

  datatype Result<F> = Result(ring: Ring<F>, outcome: Outcome)

  function NewRing<F>(): Ring<F> { Ring([], [], false, [], [], Work(0, 0, 0, 0)) }

  /** The position of the oldest buffered frame. */
  function Oldest<F>(r: Ring<F>): int { |r.input| - |r.buf| }

  function Push<F>(c: Config, r: Ring<F>, f: F): Ring<F>
    requires c.Valid() && |r.buf| <= |r.input|
  {
    var full := |r.buf| >= c.capacity;
    r.(input := r.input + [f],
       buf := (if full then r.buf[1..] else r.buf) + [f],
       evicted := if full then r.evicted + [Oldest(r)] else r.evicted)
  }

  /** Delivers the backlog in order until a send fails. */
  function Flush<F>(c: Config, r: Ring<F>): Result<F>
    requires |r.buf| <= |r.input|
    decreases |r.buf|
  {
    if r.buf == [] then Result(r, Sent)
    else
      var w := r.work.(sends := r.work.sends + 1);
      if !c.env.sendOk(r.work.sends) then Result(r.(work := w), ReplayFailed)
      else Flush(c, r.(buf := r.buf[1..], acked := r.acked + [Oldest(r)], work := w))
  }

  function Delay(attempt: nat): nat { if attempt == 0 then 0 else if attempt == 1 then 80 else 200 }

  /** Attempt `a` of provider `p` on: each provider gets three attempts at 0/80/200 ms. */
  function DialFrom<F>(c: Config, r: Ring<F>, p: nat, a: nat): Result<F>
    requires p <= c.providers && a <= 3
    decreases c.providers - p, 3 - a
  {
    if p == c.providers then Result(r, Unavailable)
    else if a == 3 then DialFrom(c, r, p + 1, 0)
    else
      var s := Slept(r, Delay(a));
      if Delay(a) > 0 && !c.env.sleepOk(r.work.sleeps) then Result(s, Interrupted)
      else
        var d := Dialed(s);
        if c.env.dialOk(s.work.dials) then Result(d.(connected := true), Sent)
        else DialFrom(c, d, p, a + 1)
  }

  function Slept<F>(r: Ring<F>, ms: nat): Ring<F> {
    if ms == 0 then r
    else r.(work := r.work.(sleeps := r.work.sleeps + 1, sleptMs := r.work.sleptMs + ms))
  }

  function Dialed<F>(r: Ring<F>): Ring<F> { r.(work := r.work.(dials := r.work.dials + 1)) }

  function Dial<F>(c: Config, r: Ring<F>): Result<F> { DialFrom(c, r, 0, 0) }

  function Dropped<F>(r: Ring<F>): Ring<F> { r.(connected := false) }

  function SendFrame<F>(c: Config, r: Ring<F>, f: F): Result<F>
    requires c.Valid() && |r.buf| <= |r.input|
  {
    var pushed := Push(c, r, f);
    var first := if pushed.connected then Result(pushed, Sent) else Dial(c, pushed);
    DialKeeps(c, pushed, 0, 0);
    if first.outcome.Sent? then Deliver(c, first.ring) else first
  }

  /** Delivers over a live connection; when it dies, redials and replays once. */
  function Deliver<F>(c: Config, r: Ring<F>): Result<F>
    requires |r.buf| <= |r.input|
  {
    var flushed := Flush(c, r);
    if flushed.outcome.Sent? then flushed
    else
      FlushKeeps(c, r);
      DialKeeps(c, Dropped(flushed.ring), 0, 0);
      var again := Dial(c, Dropped(flushed.ring));
      if !again.outcome.Sent? then again
      else
        var replayed := Flush(c, again.ring);
        if replayed.outcome.Sent? then replayed else Result(Dropped(replayed.ring), ReplayFailed)
  }

  lemma {:induction false} DialKeeps<F>(c: Config, r: Ring<F>, p: nat, a: nat)
    requires p <= c.providers && a <= 3
    ensures var x := DialFrom(c, r, p, a);
            && x.ring == r.(work := x.ring.work, connected := x.ring.connected)
            && x.ring.connected == (r.connected || x.outcome.Sent?)
            && !x.outcome.ReplayFailed?
    decreases c.providers - p, 3 - a
  {
    if p < c.providers {
      if a == 3 {
        DialKeeps(c, r, p + 1, 0);
      } else {
        DialKeeps(c, Dialed(Slept(r, Delay(a))), p, a + 1);
      }
    }
  }

  lemma {:induction false} FlushKeeps<F>(c: Config, r: Ring<F>)
    requires |r.buf| <= |r.input|
    ensures var x := Flush(c, r);
            && x.ring.input == r.input && x.ring.connected == r.connected && x.ring.evicted == r.evicted
            && |x.ring.buf| <= |r.buf|
            && (x.outcome.Sent? <==> x.ring.buf == [])
            && (x.outcome.Sent? || x.outcome.ReplayFailed?)
            && x.ring.work.dials == r.work.dials && x.ring.work.sleptMs == r.work.sleptMs
    decreases |r.buf|
  {
    if r.buf != [] && c.env.sendOk(r.work.sends) {
      FlushKeeps(c, FirstAcked(r));
    }
  }

  function FirstAcked<F>(r: Ring<F>): Ring<F>
    requires r.buf != [] && |r.buf| <= |r.input|
  {
    r.(buf := r.buf[1..], acked := r.acked + [|r.input| - |r.buf|], work := r.work.(sends := r.work.sends + 1))
  }

  // --- every frame is acknowledged, evicted or buffered

  ghost predicate Rising(s: seq<nat>, below: int) {
    && (forall i, j :: 0 <= i < j < |s| ==> s[i] < s[j])
    && forall i :: i in s ==> i < below
  }

  /** The buffer is the end of the input; what came before it was acknowledged, in input order
      and once, or evicted, after `capacity` newer frames had come. */
  ghost predicate Accounted<F>(capacity: nat, r: Ring<F>) {
    && |r.buf| <= capacity && |r.buf| <= |r.input| && r.buf == r.input[Oldest(r)..]
    && Rising(r.acked, Oldest(r)) && Rising(r.evicted, Oldest(r))
    && (forall i: nat :: i < Oldest(r) ==> (i in r.acked <==> i !in r.evicted))
    && (forall i: nat :: i in r.evicted ==> i + capacity < |r.input|)
  }

  lemma RisingExtends(s: seq<nat>, below: nat)
    requires Rising(s, below)
    ensures Rising(s + [below], below + 1) && Rising(s, below + 1)
  {
    forall i, j | 0 <= i < j < |s + [below]| ensures (s + [below])[i] < (s + [below])[j] {
      assert s[i] in s;
    }
  }

  lemma PushAccounts<F>(c: Config, r: Ring<F>, f: F)
    requires c.Valid() && Accounted(c.capacity, r)
    ensures Accounted(c.capacity, Push(c, r, f)) && Push(c, r, f).buf != []
  {
    RisingExtends(r.acked, Oldest(r));
    RisingExtends(r.evicted, Oldest(r));
    hide Rising;
    var q := Push(c, r, f);
    assert q.buf == q.input[Oldest(q)..];
  }

  lemma {:induction false} FlushAccounts<F>(c: Config, r: Ring<F>)
    requires Accounted(c.capacity, r)
    ensures Accounted(c.capacity, Flush(c, r).ring)
    decreases |r.buf|
  {
    if r.buf != [] && c.env.sendOk(r.work.sends) {
      RisingExtends(r.acked, Oldest(r));
      RisingExtends(r.evicted, Oldest(r));
      assert Accounted(c.capacity, FirstAcked(r)) by {
        hide Rising;
        assert r.buf[1..] == r.input[Oldest(r) + 1..];
      }
      FlushAccounts(c, FirstAcked(r));
    }
  }

  lemma SameBooks<F>(capacity: nat, r: Ring<F>, q: Ring<F>)
    requires Accounted(capacity, r) && q == r.(work := q.work, connected := q.connected)
    ensures Accounted(capacity, q)
  {}

  /** A send succeeds exactly when it leaves a live connection and an empty buffer; otherwise it
      leaves no connection, and the frame waits at the end of the buffer. */
  lemma SendAccounts<F>(c: Config, r: Ring<F>, f: F)
    requires c.Valid() && Accounted(c.capacity, r)
    ensures var x := SendFrame(c, r, f);
            && Accounted(c.capacity, x.ring) && x.ring.input == r.input + [f]
            && (x.outcome.Sent? <==> x.ring.connected && x.ring.buf == [])
            && (!x.outcome.Sent? ==> !x.ring.connected && x.ring.buf != [] && x.ring.buf[|x.ring.buf| - 1] == f)
            && x.ring.evicted == Push(c, r, f).evicted
            && |x.ring.buf| <= |r.buf| + 1
  {
    OldestExists(c.capacity, r);
    hide Accounted, DialFrom, Deliver, Push;
    var p := Push(c, r, f);
    PushAccounts(c, r, f);
    PushEnds(c, r, f);
    DialKeeps(c, p, 0, 0);
    var first := if p.connected then Result(p, Sent) else Dial(c, p);
    SameBooks(c.capacity, p, first.ring);
    if first.outcome.Sent? {
      DeliverAccounts(c, first.ring, f);
    }
  }

  lemma DeliverAccounts<F>(c: Config, r: Ring<F>, f: F)
    requires Accounted(c.capacity, r) && |r.buf| <= |r.input| && r.connected
    requires r.input != [] && r.input[|r.input| - 1] == f
    ensures var x := Deliver(c, r);
            && Accounted(c.capacity, x.ring) && x.ring.input == r.input
            && (x.outcome.Sent? <==> x.ring.connected && x.ring.buf == [])
            && (!x.outcome.Sent? ==> !x.ring.connected && x.ring.buf != [] && x.ring.buf[|x.ring.buf| - 1] == f)
            && x.ring.evicted == r.evicted && |x.ring.buf| <= |r.buf|
  {
    hide Accounted, DialFrom, Flush;
    FlushBooks(c, r, f);
    var flushed := Flush(c, r);
    if !flushed.outcome.Sent? {
      var dropped := Dropped(flushed.ring);
      SameBooks(c.capacity, flushed.ring, dropped);
      DialKeeps(c, dropped, 0, 0);
      var again := Dial(c, dropped);
      SameBooks(c.capacity, dropped, again.ring);
      if again.outcome.Sent? {
        FlushBooks(c, again.ring, f);
        SameBooks(c.capacity, Flush(c, again.ring).ring, Dropped(Flush(c, again.ring).ring));
      }
    }
  }

  lemma PushEnds<F>(c: Config, r: Ring<F>, f: F)
    requires c.Valid() && Accounted(c.capacity, r)
    ensures var p := Push(c, r, f);
            p.buf != [] && p.buf[|p.buf| - 1] == f && |p.buf| <= |p.input| && |p.buf| <= |r.buf| + 1
            && p.input == r.input + [f] && p.connected == r.connected
  {}

  lemma FlushBooks<F>(c: Config, r: Ring<F>, f: F)
    requires Accounted(c.capacity, r) && |r.buf| <= |r.input| && r.input != [] && r.input[|r.input| - 1] == f
    ensures var x := Flush(c, r);
            && Accounted(c.capacity, x.ring) && x.ring.input == r.input && x.ring.connected == r.connected
            && x.ring.evicted == r.evicted && |x.ring.buf| <= |r.buf| && |x.ring.buf| <= |x.ring.input|
            && (x.outcome.Sent? <==> x.ring.buf == [])
            && (x.outcome.Sent? || x.outcome.ReplayFailed?)
            && (x.ring.buf != [] ==> x.ring.buf[|x.ring.buf| - 1] == f)
  {
    FlushAccounts(c, r);
    FlushKeeps(c, r);
  }

  // --- every run

  datatype Op<F> = Send(frame: F) | Close

  function Step<F>(c: Config, r: Ring<F>, op: Op<F>): Result<F>
    requires c.Valid() && |r.buf| <= |r.input|
  {
    match op
    case Send(f) => SendFrame(c, r, f)
    case Close => Result(Dropped(r), Sent)
  }

  /** Sends since the last successful one. */
  datatype Life<F> = Life(ring: Ring<F>, failures: nat)

  function Run<F>(c: Config, ops: seq<Op<F>>): (l: Life<F>)
    requires c.Valid()
    ensures Accounted(c.capacity, l.ring)
    ensures l.ring.connected ==> l.ring.buf == []
    ensures |l.ring.buf| <= l.failures
  {
    if ops == [] then Life(NewRing(), 0)
    else
      var before, op := Run(c, ops[..|ops| - 1]), ops[|ops| - 1];
      StepAccounts(c, before.ring, op);
      var x := Step(c, before.ring, op);
      Life(x.ring, if op.Close? then before.failures else if x.outcome.Sent? then 0 else before.failures + 1)
  }

  lemma StepAccounts<F>(c: Config, r: Ring<F>, op: Op<F>)
    requires c.Valid() && Accounted(c.capacity, r) && (r.connected ==> r.buf == [])
    ensures var x := Step(c, r, op);
            && Accounted(c.capacity, x.ring) && (x.ring.connected ==> x.ring.buf == [])
            && (op.Send? && x.outcome.Sent? ==> x.ring.buf == [])
            && |x.ring.buf| <= |r.buf| + (if op.Send? then 1 else 0)
  {
    if op.Send? {
      hide Accounted, SendFrame;
      assert |r.buf| <= |r.input| by { OldestExists(c.capacity, r); }
      SendAccounts(c, r, op.frame);
    }
  }

  lemma OldestExists<F>(capacity: nat, r: Ring<F>)
    requires Accounted(capacity, r)
    ensures |r.buf| <= |r.input|
  {}

  function Frames<F>(ops: seq<Op<F>>): seq<F> {
    if ops == [] then []
    else Frames(ops[..|ops| - 1]) + if ops[|ops| - 1].Send? then [ops[|ops| - 1].frame] else []
  }

  /** Over every run and every behaviour of the outside world: the buffer is a suffix of the
      frames sent, of at most `capacity` frames, and each earlier frame is either acknowledged,
      in input order and once, or evicted. */
  lemma {:induction false} EveryFrameIsAccounted<F>(c: Config, ops: seq<Op<F>>)
    requires c.Valid()
    ensures Run(c, ops).ring.input == Frames(ops) && Accounted(c.capacity, Run(c, ops).ring)
  {
    if ops != [] {
      var before := Run(c, ops[..|ops| - 1]);
      EveryFrameIsAccounted(c, ops[..|ops| - 1]);
      hide Accounted, SendFrame;
      if ops[|ops| - 1].Send? {
        SendAccounts(c, before.ring, ops[|ops| - 1].frame);
      }
    }
  }

  /** A frame is lost only in an outage longer than the ring: an eviction takes at least
      `capacity` failed sends in a row before it, with no connection. */
  lemma EvictsOnlyInLongOutage<F>(c: Config, ops: seq<Op<F>>, f: F)
    requires c.Valid()
    ensures var before := Run(c, ops);
            Run(c, ops + [Send(f)]).ring.evicted != before.ring.evicted
            ==> !before.ring.connected && before.failures >= c.capacity
  {
    var all := ops + [Send(f)];
    assert all[..|all| - 1] == ops;
    SendAccounts(c, Run(c, ops).ring, f);
  }

  // --- the price of one send

  lemma {:induction false} DialCost<F>(c: Config, r: Ring<F>, p: nat, a: nat)
    requires p <= c.providers && a <= 3 && (p < c.providers || a == 0)
    ensures var w := DialFrom(c, r, p, a).ring.work;
            && w.dials <= r.work.dials + 3 * (c.providers - p) - a
            && w.sleptMs <= r.work.sleptMs + 280 * (c.providers - p)
                            - (if a <= 1 then 0 else if a == 2 then 80 else 280)
    decreases c.providers - p, 3 - a
  {
    if p < c.providers {
      if a == 3 {
        DialCost(c, r, p + 1, 0);
      } else {
        DialCost(c, Dialed(Slept(r, Delay(a))), p, a + 1);
      }
    }
  }

  /** One send dials at most six times a provider and sleeps at most 560 ms a provider. */
  lemma SendCost<F>(c: Config, r: Ring<F>, f: F)
    requires c.Valid() && Accounted(c.capacity, r)
    ensures var w := SendFrame(c, r, f).ring.work;
            && w.dials <= r.work.dials + 6 * c.providers
            && w.sleptMs <= r.work.sleptMs + 560 * c.providers
  {
    hide DialFrom, Flush;
    var p := Push(c, r, f);
    DialKeeps(c, p, 0, 0);
    DialCost(c, p, 0, 0);
    var first := if p.connected then Result(p, Sent) else Dial(c, p);
    if first.outcome.Sent? {
      FlushKeeps(c, first.ring);
      var dropped := Dropped(Flush(c, first.ring).ring);
      DialKeeps(c, dropped, 0, 0);
      DialCost(c, dropped, 0, 0);
      if Dial(c, dropped).outcome.Sent? {
        FlushKeeps(c, Dial(c, dropped).ring);
      }
    }
  }

  /** A world where only dial number `at` succeeds and nothing is ever delivered. */
  function Hostile(at: nat): Env { Env(i => i == at, i => false, i => true) }

  ghost predicate InHostileWorld(c: Config, at: nat) { c.env == Hostile(at) }

  lemma {:induction false} HostileDial<F>(c: Config, r: Ring<F>, p: nat, a: nat, at: nat)
    requires InHostileWorld(c, at) && p < c.providers && a < 3
    requires at < r.work.dials || at == r.work.dials + 3 * (c.providers - p) - a - 1
    ensures var x := DialFrom(c, r, p, a);
            && (x.outcome == if at < r.work.dials then Unavailable else Sent)
            && x.ring.work.dials == r.work.dials + 3 * (c.providers - p) - a
            && x.ring.work.sleptMs == r.work.sleptMs + 280 * (c.providers - p) - (if a <= 1 then 0 else 80)
    decreases c.providers - p, 3 - a
  {
    var d := Dialed(Slept(r, Delay(a)));
    if r.work.dials != at {
      if a < 2 {
        HostileDial(c, d, p, a + 1, at);
      } else if p + 1 < c.providers {
        HostileDial(c, d, p + 1, 0, at);
        assert DialFrom(c, d, p, 3) == DialFrom(c, d, p + 1, 0);
      } else {
        assert DialFrom(c, d, p, 3) == DialFrom(c, d, p + 1, 0) == Result(d, Unavailable);
      }
    }
  }

  /** The bounds of `SendCost` are reached by the first send of some world, for every number of
      providers. */
  lemma SendCostIsReached<F>(providers: nat, capacity: nat, f: F)
    requires providers >= 1 && capacity >= 1
    ensures var c := Config(providers, capacity, Hostile(3 * providers - 1));
            var w := SendFrame(c, NewRing<F>(), f).ring.work;
            w.dials == 6 * providers && w.sleptMs == 560 * providers
  {
    var c := Config(providers, capacity, Hostile(3 * providers - 1));
    var p := Push(c, NewRing(), f);
    HostileDial(c, p, 0, 0, 3 * providers - 1);
    DialKeeps(c, p, 0, 0);
    var first := Dial(c, p).ring;
    var dropped := Dropped(Flush(c, first).ring);
    HostileDial(c, dropped, 0, 0, 3 * providers - 1);
  }

  // --- the object

  class STTRing<F> {
    const cfg: Config
    var connected: bool
    var buf: seq<F>
    var reconnect: nat
    var sends: nat
    var sleeps: nat
    ghost var input: seq<F>
    ghost var acked: seq<nat>
    ghost var evicted: seq<nat>
    ghost var sleptMs: nat

    ghost function View(): Ring<F>
      reads this
    {
      Ring(input, buf, connected, acked, evicted, Work(reconnect, sends, sleeps, sleptMs))
    }

    ghost predicate Valid()
      reads this
    {
      cfg.Valid() && Accounted(cfg.capacity, View())
    }

    constructor (cfg: Config)
      requires cfg.Valid()
      ensures Valid() && View() == NewRing() && this.cfg == cfg
    {
      this.cfg := cfg;
      connected, buf, reconnect, sends, sleeps := false, [], 0, 0, 0;
      input, acked, evicted, sleptMs := [], [], [], 0;
    }

    method PushOne(f: F)
      requires cfg.Valid() && |buf| <= |input|
      modifies this`buf, this`input, this`evicted
      ensures View() == Push(cfg, old(View()), f)
    {
      if |buf| >= cfg.capacity {
        evicted := evicted + [|input| - |buf|];
        buf := buf[1..];
      }
      buf := buf + [f];
      input := input + [f];
    }

    method FlushAll() returns (ok: bool)
      requires |buf| <= |input|
      modifies this`buf, this`acked, this`sends
      ensures View() == Flush(cfg, old(View())).ring
      ensures ok == Flush(cfg, old(View())).outcome.Sent?
    {
      while buf != []
        invariant |buf| <= |input|
        invariant Flush(cfg, View()) == Flush(cfg, old(View()))
        decreases |buf|
      {
        var sent := cfg.env.sendOk(sends);
        sends := sends + 1;
        if !sent {
          return false;
        }
        acked := acked + [|input| - |buf|];
        buf := buf[1..];
      }
      return true;
    }

    method DropConn()
      modifies this`connected
      ensures View() == Dropped(old(View()))
    {
      connected := false;
    }

    method DialAll() returns (o: Outcome)
      modifies this`connected, this`reconnect, this`sleeps, this`sleptMs
      ensures Result(View(), o) == Dial(cfg, old(View()))
    {
      for p := 0 to cfg.providers
        invariant DialFrom(cfg, View(), p, 0) == Dial(cfg, old(View()))
      {
        var done := DialProvider(p);
        if done.Some? {
          return done.value;
        }
      }
      return Unavailable;
    }

    /** The three attempts at one provider; `None` when all failed. */
    method DialProvider(p: nat) returns (done: Option<Outcome>)
      requires p < cfg.providers
      modifies this`connected, this`reconnect, this`sleeps, this`sleptMs
      ensures DialFrom(cfg, old(View()), p, 0)
           == if done.Some? then Result(View(), done.value) else DialFrom(cfg, View(), p + 1, 0)
    {
      for a := 0 to 3
        invariant DialFrom(cfg, View(), p, a) == DialFrom(cfg, old(View()), p, 0)
      {
        var delay := Delay(a);
        if delay > 0 {
          var slept := cfg.env.sleepOk(sleeps);
          sleeps := sleeps + 1;
          sleptMs := sleptMs + delay;
          if !slept {
            return Some(Interrupted);
          }
        }
        var ok := cfg.env.dialOk(reconnect);
        reconnect := reconnect + 1;
        if ok {
          connected := true;
          return Some(Sent);
        }
      }
      return None;
    }

    method Close()
      requires Valid()
      modifies this`connected
      ensures View() == Step(cfg, old(View()), Op<F>.Close).ring
    {
      connected := false;
    }

    method SendOne(f: F) returns (o: Outcome)
      requires Valid()
      modifies this
      ensures Valid() && Result(View(), o) == SendFrame(cfg, old(View()), f)
    {
      hide DialFrom, Flush, Accounted;
      ghost var before := View();
      SendAccounts(cfg, before, f);
      OldestExists(cfg.capacity, before);
      PushEnds(cfg, before, f);
      PushOne(f);
      DialKeeps(cfg, View(), 0, 0);
      if !connected {
        o := DialAll();
        if !o.Sent? {
          return o;
        }
      }
      FlushKeeps(cfg, View());
      var ok := FlushAll();
      if ok {
        return Sent;
      }
      DropConn();
      DialKeeps(cfg, View(), 0, 0);
      o := DialAll();
      if !o.Sent? {
        return o;
      }
      FlushKeeps(cfg, View());
      ok := FlushAll();
      if !ok {
        DropConn();
        return ReplayFailed;
      }
      return Sent;
    }
  }
}
