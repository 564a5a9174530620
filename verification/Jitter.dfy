/** The jitter buffer: inbound frames reordered by sequence number, gaps conceded once more
    than `window` frames wait behind one. */
module Jitter {
  import opened Common

  datatype Frame = Frame(seqNo: nat, pcm: int)

  datatype Buffer = Buffer(window: nat, next: nat, started: bool, pending: map<nat, Frame>)

  datatype Drained = Drained(out: seq<Frame>, buf: Buffer)

  function NewBuffer(window: int): Buffer {
    Buffer(if window <= 0 then 5 else window, 0, false, map[])
  }

  predicate IsSmallest(keys: set<nat>, k: nat) { k in keys && forall y :: y in keys ==> k <= y }

  function Oldest(keys: set<nat>): (k: nat)
    requires keys != {}
    ensures IsSmallest(keys, k)
  {
    SmallestExists(keys);
    var k :| IsSmallest(keys, k);
    k
  }

  lemma {:induction false} SmallestExists(keys: set<nat>)
    requires keys != {}
    ensures exists k :: IsSmallest(keys, k)
  {
    var x :| x in keys;
    var rest := keys - {x};
    if rest == {} {
      assert keys == {x};
      assert IsSmallest(keys, x);
    } else {
      SmallestExists(rest);
      var k :| IsSmallest(rest, k);
      assert keys == rest + {x};
      assert IsSmallest(keys, if x < k then x else k);
    }
  }

  function Released(b: Buffer): Buffer { b.(next := b.next + 1, pending := b.pending - {b.next}) }

  /** The release loop: the contiguous run, then a conceded gap, until nothing more is due. */
  function Drain(b: Buffer): Drained
    decreases |b.pending|, if b.next in b.pending then 0 else 1
  {
    if b.next in b.pending then
      assert b.pending.Keys == (b.pending - {b.next}).Keys + {b.next};
      var r := Drain(Released(b));
      Drained([b.pending[b.next]] + r.out, r.buf)
    else if |b.pending| > b.window then
      Drain(b.(next := Oldest(b.pending.Keys)))
    else Drained([], b)
  }

  /** A frame that is behind the last release. */
  predicate Late(b: Buffer, f: Frame) { b.started && f.seqNo < b.next }

  function Insert(b: Buffer, f: Frame): Buffer {
    b.(started := true, next := if b.started then b.next else f.seqNo, pending := b.pending[f.seqNo := f])
  }

  function Push(b: Buffer, f: Frame): Drained {
    if Late(b, f) then Drained([], b) else Drain(Insert(b, f))
  }

  /** Everything released for a whole arrival order, and the buffer after it. */
  function Run(window: int, arrivals: seq<Frame>): Drained {
    if arrivals == [] then Drained([], NewBuffer(window))
    else
      var before := Run(window, arrivals[..|arrivals| - 1]);
      var r := Push(before.buf, arrivals[|arrivals| - 1]);
      Drained(before.out + r.out, r.buf)
  }

  // --- every arrival order

  ghost predicate Rising(out: seq<Frame>) {
    forall i, j :: 0 <= i < j < |out| ==> out[i].seqNo < out[j].seqNo
  }

  ghost predicate Ahead(b: Buffer) {
    && (forall k :: k in b.pending ==> k >= b.next && b.pending[k].seqNo == k)
    && (!b.started ==> b.pending == map[])
  }

  /** Between pushes: what waits lies strictly ahead and fits the window. */
  ghost predicate Settled(b: Buffer) { Ahead(b) && b.next !in b.pending && |b.pending| <= b.window }

  function Numbers(frames: seq<Frame>): set<nat> { set f <- frames :: f.seqNo }

  /** Nothing is lost: what was pending is released, in order, or still pending. */
  ghost predicate Conserves(b: Buffer, r: Drained) {
    && b.next <= r.buf.next && r.buf.window == b.window && r.buf.started == b.started
    && Rising(r.out)
    && (forall f :: f in r.out ==> b.next <= f.seqNo < r.buf.next && f.seqNo in b.pending && b.pending[f.seqNo] == f)
    && (forall k :: k in r.buf.pending ==> k in b.pending && r.buf.pending[k] == b.pending[k])
    && Numbers(r.out) + r.buf.pending.Keys == b.pending.Keys
  }

  lemma ReleaseConserves(b: Buffer, r: Drained)
    requires Ahead(b) && b.next in b.pending && Conserves(Released(b), r)
    ensures Conserves(b, Drained([b.pending[b.next]] + r.out, r.buf))
  {
    var first := b.pending[b.next];
    PrependRises(first, r.out);
    hide Rising, Numbers;
    assert b.pending.Keys == Released(b).pending.Keys + {b.next};
  }

  lemma PrependRises(first: Frame, out: seq<Frame>)
    requires Rising(out) && forall f :: f in out ==> first.seqNo < f.seqNo
    ensures Rising([first] + out) && Numbers([first] + out) == {first.seqNo} + Numbers(out)
  {
    forall i, j | 0 <= i < j < |out| + 1 ensures ([first] + out)[i].seqNo < ([first] + out)[j].seqNo {
      assert out[j - 1] in out;
    }
  }

  lemma ConcedeConserves(b: Buffer, r: Drained, next: nat)
    requires Conserves(b.(next := next), r) && b.next <= next
    ensures Conserves(b, r)
  {}

  lemma {:induction false} DrainConserves(b: Buffer)
    requires Ahead(b)
    ensures Conserves(b, Drain(b)) && Settled(Drain(b).buf)
    decreases |b.pending|, if b.next in b.pending then 0 else 1
  {
    hide Conserves;
    if b.next in b.pending {
      assert b.pending.Keys == Released(b).pending.Keys + {b.next};
      DrainConserves(Released(b));
      ReleaseConserves(b, Drain(Released(b)));
    } else if |b.pending| > b.window {
      var o := Oldest(b.pending.Keys);
      DrainConserves(b.(next := o));
      ConcedeConserves(b, Drain(b.(next := o)), o);
    } else {
      NothingConserves(b);
    }
  }

  lemma NothingConserves(b: Buffer)
    ensures Conserves(b, Drained([], b))
  {}

  /** The numbers of the frames that were on time when they arrived. */
  function OnTime(window: int, arrivals: seq<Frame>): set<nat> {
    if arrivals == [] then {}
    else
      var a, f := arrivals[..|arrivals| - 1], arrivals[|arrivals| - 1];
      OnTime(window, a) + if Late(Run(window, a).buf, f) then {} else {f.seqNo}
  }

  /** `r` came of the frames `all`, of which those numbered `onTime` were on time. */
  ghost predicate Orderly(all: seq<Frame>, onTime: set<nat>, r: Drained) {
    && Rising(r.out)
    && Settled(r.buf)
    && (r.buf.started || (r.out == [] && r.buf.pending == map[]))
    && (forall f :: f in r.out ==> f.seqNo < r.buf.next && f in all)
    && (forall k :: k in r.buf.pending ==> r.buf.pending[k] in all)
    && Numbers(r.out) + r.buf.pending.Keys == onTime
  }

  /** Over any arrival order: releases rise strictly, what waits is ahead and fits the window,
      and a frame that was on time when it arrived is released or still waiting, never
      discarded. */
  lemma {:induction false} ReleasesInOrderWithoutLoss(window: int, arrivals: seq<Frame>)
    ensures Orderly(arrivals, OnTime(window, arrivals), Run(window, arrivals))
    ensures Run(window, arrivals).buf.window == NewBuffer(window).window
  {
    hide Drain, Orderly, Conserves, Settled, Late;
    if arrivals == [] {
      NoArrivals(window);
    } else {
      var a, f := arrivals[..|arrivals| - 1], arrivals[|arrivals| - 1];
      assert arrivals == a + [f];
      ReleasesInOrderWithoutLoss(window, a);
      var before, onTime := Run(window, a), OnTime(window, a);
      if Late(before.buf, f) {
        assert Run(window, arrivals) == before && OnTime(window, arrivals) == onTime;
        LateFrame(a, onTime, before, f);
      } else {
        var b := Insert(before.buf, f);
        InsertIsAhead(a, onTime, before, f);
        DrainConserves(b);
        OnTimeFrame(a, onTime, before, f, Drain(b));
        assert Drain(b).buf.window == b.window by { WindowKept(b); }
      }
    }
  }

  lemma NoArrivals(window: int)
    ensures Orderly([], {}, Drained([], NewBuffer(window)))
  {}

  lemma WindowKept(b: Buffer)
    requires Conserves(b, Drain(b))
    ensures Drain(b).buf.window == b.window
  {
    hide Drain;
  }

  lemma LateFrame(a: seq<Frame>, onTime: set<nat>, before: Drained, f: Frame)
    requires Orderly(a, onTime, before)
    ensures Orderly(a + [f], onTime, before)
  {
    hide Rising, Settled;
  }

  lemma InsertIsAhead(a: seq<Frame>, onTime: set<nat>, before: Drained, f: Frame)
    requires Orderly(a, onTime, before) && !Late(before.buf, f)
    ensures Ahead(Insert(before.buf, f))
  {
    hide Rising;
  }

  lemma OnTimeFrame(a: seq<Frame>, onTime: set<nat>, before: Drained, f: Frame, r: Drained)
    requires Orderly(a, onTime, before) && !Late(before.buf, f)
    requires Conserves(Insert(before.buf, f), r) && Settled(r.buf)
    ensures Orderly(a + [f], onTime + {f.seqNo}, Drained(before.out + r.out, r.buf))
  {
    hide Settled;
    JoinsBehind(a, onTime, before, f, r);
    JoinsRising(before.out, r.out);
    NothingDropped(a, onTime, before, f, r);
    FromArrivals(a, before.buf, f, r);
    hide Rising, Numbers;
    assert r.buf.started;
  }

  lemma JoinsBehind(a: seq<Frame>, onTime: set<nat>, before: Drained, f: Frame, r: Drained)
    requires Orderly(a, onTime, before) && !Late(before.buf, f) && Conserves(Insert(before.buf, f), r)
    ensures forall x, y :: x in before.out && y in r.out ==> x.seqNo < y.seqNo
    ensures forall x :: x in before.out || x in r.out ==> x.seqNo < r.buf.next
  {
    hide Settled, Rising, Numbers;
    if !before.buf.started { assert before.out == []; }
  }

  lemma NothingDropped(a: seq<Frame>, onTime: set<nat>, before: Drained, f: Frame, r: Drained)
    requires Orderly(a, onTime, before) && Conserves(Insert(before.buf, f), r)
    ensures Numbers(before.out) + Numbers(r.out) + r.buf.pending.Keys == onTime + {f.seqNo}
  {
    hide Settled, Rising, Numbers;
    assert Insert(before.buf, f).pending.Keys == before.buf.pending.Keys + {f.seqNo};
  }

  lemma FromArrivals(a: seq<Frame>, before: Buffer, f: Frame, r: Drained)
    requires forall k :: k in before.pending ==> before.pending[k] in a
    requires Conserves(Insert(before, f), r)
    ensures forall g :: g in r.out ==> g in a + [f]
    ensures forall k :: k in r.buf.pending ==> r.buf.pending[k] in a + [f]
  {
    hide Rising;
    var b := Insert(before, f);
    forall k | k in b.pending ensures b.pending[k] in a + [f] {}
  }

  lemma JoinsRising(a: seq<Frame>, b: seq<Frame>)
    requires Rising(a) && Rising(b)
    requires forall f, g :: f in a && g in b ==> f.seqNo < g.seqNo
    ensures Rising(a + b) && Numbers(a + b) == Numbers(a) + Numbers(b)
    ensures forall f :: f in a + b <==> f in a || f in b
  {
    forall i, j | 0 <= i < j < |a + b| ensures (a + b)[i].seqNo < (a + b)[j].seqNo {
      if i < |a| <= j {
        assert a[i] in a && b[j - |a|] in b;
      }
    }
  }

  // --- when the stream has no gap

  /** The first number from `x` on that is not in `seen`. */
  function Gap(seen: set<nat>, x: nat): (g: nat)
    ensures x <= g && g !in seen && forall y :: x <= y < g ==> y in seen
    decreases |From(seen, x)|
  {
    if x in seen then
      assert From(seen, x) == From(seen, x + 1) + {x};
      Gap(seen, x + 1)
    else x
  }

  function From(seen: set<nat>, x: nat): set<nat> { set y <- seen | y >= x }

  /** Everything received from the number of the first frame on. */
  function Seen(arrivals: seq<Frame>): set<nat>
    requires arrivals != []
  {
    set f <- arrivals | f.seqNo >= arrivals[0].seqNo :: f.seqNo
  }

  /** The first number not received yet, counting from the first frame. */
  function Missing(arrivals: seq<Frame>): nat
    requires arrivals != []
  {
    Gap(Seen(arrivals), arrivals[0].seqNo)
  }

  function Above(keys: set<nat>, g: nat): set<nat> { set y <- keys | y > g }

  /** The frames that a buffer of any size would have to hold back. */
  function Waiting(arrivals: seq<Frame>): set<nat>
    requires arrivals != []
  {
    Above(Seen(arrivals), Missing(arrivals))
  }

  ghost predicate FitsAt(window: nat, arrivals: seq<Frame>, n: nat)
    requires 1 <= n <= |arrivals|
  {
    |Waiting(arrivals[..n])| <= window
  }

  /** At no moment do more than `window` frames wait above the smallest missing one. */
  ghost predicate Fits(window: nat, arrivals: seq<Frame>) {
    forall n: nat :: 1 <= n <= |arrivals| ==> FitsAt(window, arrivals, n)
  }

  ghost predicate Contiguous(out: seq<Frame>, from: nat) {
    forall i :: 0 <= i < |out| ==> out[i].seqNo == from + i
  }

  /** A drain stops at the first missing number when what is above fits, and skips it otherwise. */
  lemma {:induction false} DrainStopsAtGap(b: Buffer)
    requires Ahead(b)
    ensures var r, g := Drain(b), Gap(b.pending.Keys, b.next);
            if |Above(b.pending.Keys, g)| <= b.window
            then r.buf.next == g && r.buf.pending.Keys == Above(b.pending.Keys, g)
                 && Contiguous(r.out, b.next) && |r.out| == g - b.next
            else !Contiguous(r.out, b.next)
    decreases |b.pending|
  {
    var g := Gap(b.pending.Keys, b.next);
    if b.next in b.pending {
      var c := Released(b);
      assert b.pending.Keys == c.pending.Keys + {b.next};
      GapUnique(c.pending.Keys, c.next, g);
      DrainStopsAtGap(c);
      assert Above(b.pending.Keys, g) == Above(c.pending.Keys, g);
      PrependContiguous(b.pending[b.next], Drain(c).out);
    } else {
      assert Above(b.pending.Keys, g) == b.pending.Keys;
      assert |b.pending.Keys| == |b.pending|;
      if |b.pending| > b.window {
        var d := b.(next := Oldest(b.pending.Keys));
        assert Drain(b) == Drain(d) && Drain(d).out[0] == b.pending[d.next];
      }
    }
  }

  lemma PrependContiguous(first: Frame, out: seq<Frame>)
    ensures Contiguous([first] + out, first.seqNo) <==> Contiguous(out, first.seqNo + 1)
  {
    if Contiguous([first] + out, first.seqNo) {
      forall i | 0 <= i < |out| ensures out[i].seqNo == first.seqNo + 1 + i {
        assert ([first] + out)[i + 1] == out[i];
      }
    }
  }

  lemma GapUnique(seen: set<nat>, x: nat, g: nat)
    requires x <= g && g !in seen && forall y :: x <= y < g ==> y in seen
    ensures Gap(seen, x) == g
  {}

  /** With everything in the window the buffer waits exactly for the smallest missing frame. */
  ghost predicate Tracks(window: int, arrivals: seq<Frame>)
    requires arrivals != []
  {
    var r := Run(window, arrivals);
    && r.buf.next == Missing(arrivals)
    && r.buf.pending.Keys == Waiting(arrivals)
    && Contiguous(r.out, arrivals[0].seqNo)
    && |r.out| == Missing(arrivals) - arrivals[0].seqNo
  }

  lemma TracksStep(window: int, a: seq<Frame>, f: Frame)
    requires a != [] && Tracks(window, a)
    ensures var w := NewBuffer(window).window;
            if |Waiting(a + [f])| <= w then Tracks(window, a + [f])
            else !Contiguous(Run(window, a + [f]).out, a[0].seqNo)
  {
    hide Drain;
    var before, t := Run(window, a), a + [f];
    assert t[..|t| - 1] == a && t[0] == a[0];
    ReleasesInOrderWithoutLoss(window, a);
    SeenStep(a, f);
    StartedAfter(window, a);
    if Late(before.buf, f) {
      assert before.out + [] == before.out;
      assert |Waiting(a)| == |before.buf.pending.Keys| == |before.buf.pending|;
    } else {
      InsertIsAhead(a, OnTime(window, a), before, f);
      TracksOnTime(window, a, f);
    }
  }

  lemma {:induction false} StartedAfter(window: int, a: seq<Frame>)
    requires a != []
    ensures Run(window, a).buf.started
  {
    hide Drain;
    var c, f := a[..|a| - 1], a[|a| - 1];
    var before := Run(window, c);
    if c != [] { StartedAfter(window, c); }
    ReleasesInOrderWithoutLoss(window, c);
    if !Late(before.buf, f) {
      InsertIsAhead(c, OnTime(window, c), before, f);
      DrainConserves(Insert(before.buf, f));
    }
  }

  lemma SeenStep(a: seq<Frame>, f: Frame)
    requires a != []
    ensures f.seqNo < Missing(a) ==> Seen(a + [f]) == Seen(a)
    ensures f.seqNo >= Missing(a) ==> Seen(a + [f]) == Seen(a) + {f.seqNo}
  {
    assert (a + [f])[0] == a[0];
    assert a[0].seqNo <= f.seqNo < Missing(a) ==> f.seqNo in Seen(a);
  }

  lemma TracksOnTime(window: int, a: seq<Frame>, f: Frame)
    requires a != [] && Tracks(window, a) && f.seqNo >= Missing(a)
    requires Ahead(Insert(Run(window, a).buf, f)) && Run(window, a).buf.started
    requires Run(window, a).buf.window == NewBuffer(window).window
    ensures var w := NewBuffer(window).window;
            if |Waiting(a + [f])| <= w then Tracks(window, a + [f])
            else !Contiguous(Run(window, a + [f]).out, a[0].seqNo)
  {
    hide Drain, Contiguous, Missing, Waiting;
    var before, t := Run(window, a), a + [f];
    assert t[..|t| - 1] == a && t[0] == a[0];
    var b := Insert(before.buf, f);
    assert Run(window, t) == Drained(before.out + Drain(b).out, Drain(b).buf);
    var g := Gap(b.pending.Keys, b.next);
    GapAfter(a, f, b);
    DrainStopsAtGap(b);
    JoinContiguous(before.out, Drain(b).out, a[0].seqNo);
  }

  lemma GapAfter(a: seq<Frame>, f: Frame, b: Buffer)
    requires a != [] && f.seqNo >= Missing(a) && b.next == Missing(a)
    requires b.pending.Keys == Waiting(a) + {f.seqNo}
    ensures Missing(a + [f]) == Gap(b.pending.Keys, b.next)
    ensures Waiting(a + [f]) == Above(b.pending.Keys, Gap(b.pending.Keys, b.next))
  {
    SeenStep(a, f);
    assert (a + [f])[0] == a[0];
    var seen, g := Seen(a + [f]), Gap(b.pending.Keys, b.next);
    hide Seen;
    GapUnique(seen, a[0].seqNo, g);
  }

  lemma JoinContiguous(a: seq<Frame>, b: seq<Frame>, from: nat)
    requires Contiguous(a, from)
    ensures Contiguous(a + b, from) <==> Contiguous(b, from + |a|)
  {
    if Contiguous(a + b, from) {
      forall i | 0 <= i < |b| ensures b[i].seqNo == from + |a| + i {
        assert (a + b)[|a| + i] == b[i];
      }
    }
  }

  lemma TracksFirst(window: int, f: Frame)
    ensures Tracks(window, [f])
  {
    var b := Insert(NewBuffer(window), f);
    assert [f][..0] == [];
    assert Seen([f]) == {f.seqNo} == b.pending.Keys;
    assert Waiting([f]) == {};
    DrainStopsAtGap(b);
    assert Run(window, [f]).out == Drain(b).out;
  }

  lemma FitsPrefix(w: nat, a: seq<Frame>, f: Frame)
    ensures Fits(w, a + [f]) <==> Fits(w, a) && |Waiting(a + [f])| <= w
  {
    var t := a + [f];
    assert t[..|t|] == t;
    forall n: nat | 1 <= n <= |a| ensures t[..n] == a[..n] {}
    assert Fits(w, t) ==> FitsAt(w, t, |t|);
    if Fits(w, t) {
      forall n: nat | 1 <= n <= |a| ensures FitsAt(w, a, n) { assert FitsAt(w, t, n); }
    }
    if Fits(w, a) && |Waiting(t)| <= w {
      forall n: nat | 1 <= n <= |t| ensures FitsAt(w, t, n) {
        if n <= |a| { assert FitsAt(w, a, n); }
      }
    }
  }

  /** The output counts up from the first frame without a gap exactly when never more than
      `window` frames wait above the smallest missing one; and while that holds the buffer has
      released everything below that number. */
  lemma {:induction false} ContiguousIffWithinWindow(window: int, arrivals: seq<Frame>)
    requires arrivals != []
    ensures Contiguous(Run(window, arrivals).out, arrivals[0].seqNo) <==> Fits(NewBuffer(window).window, arrivals)
    ensures Fits(NewBuffer(window).window, arrivals) ==> Tracks(window, arrivals)
  {
    var w, a, f := NewBuffer(window).window, arrivals[..|arrivals| - 1], arrivals[|arrivals| - 1];
    assert arrivals == a + [f];
    FitsPrefix(w, a, f);
    if a == [] {
      TracksFirst(window, f);
      assert Waiting([f]) == {};
    } else {
      ContiguousIffWithinWindow(window, a);
      if Fits(w, a) {
        TracksStep(window, a, f);
      } else if Contiguous(Run(window, arrivals).out, arrivals[0].seqNo) {
        var out := Run(window, a).out;
        forall i | 0 <= i < |out| ensures out[i].seqNo == a[0].seqNo + i {
          assert Run(window, arrivals).out[i] == out[i];
        }
      }
    }
  }

  /** A stream that fits, starts with its smallest number and lacks none up to `n` comes out
      whole and sorted. */
  lemma WholeStreamComesOutSorted(window: int, arrivals: seq<Frame>, n: nat)
    requires arrivals != [] && Fits(NewBuffer(window).window, arrivals)
    requires forall k :: k in Numbers(arrivals) <==> arrivals[0].seqNo <= k < n
    ensures var r := Run(window, arrivals);
            && |r.out| == n - arrivals[0].seqNo && Contiguous(r.out, arrivals[0].seqNo)
            && r.buf.pending == map[]
  {
    assert arrivals[0].seqNo in Numbers(arrivals);
    assert Seen(arrivals) == Numbers(arrivals);
    GapUnique(Seen(arrivals), arrivals[0].seqNo, n);
    ContiguousIffWithinWindow(window, arrivals);
    assert Run(window, arrivals).buf.pending.Keys == {};
  }

  // --- the object

  class JitterBuffer {
    const window: nat
    var next: nat
    var started: bool
    var pending: map<nat, Frame>

    ghost function View(): Buffer
      reads this
    {
      Buffer(window, next, started, pending)
    }

    constructor (window: int)
      ensures View() == NewBuffer(window)
    {
      this.window := if window <= 0 then 5 else window;
      next, started, pending := 0, false, map[];
    }

    method OldestPending() returns (k: nat)
      requires pending != map[]
      ensures k == Oldest(pending.Keys)
    {
      var first, todo := true, pending.Keys;
      ghost var seen: set<nat> := {};
      k := 0;
      while todo != {}
        invariant seen + todo == pending.Keys
        invariant first <==> seen == {}
        invariant !first ==> IsSmallest(seen, k)
        decreases |todo|
      {
        var x :| x in todo;
        if first || x < k {
          k := x;
          first := false;
        }
        todo, seen := todo - {x}, seen + {x};
      }
      assert seen == pending.Keys;
    }

    method PushFrame(f: Frame) returns (out: seq<Frame>)
      modifies this
      ensures Drained(out, View()) == Push(old(View()), f)
    {
      if !started {
        started := true;
        next := f.seqNo;
      }
      if f.seqNo < next {
        return [];
      }
      pending := pending[f.seqNo := f];
      out := [];
      ghost var start := View();
      while true
        invariant Continues(out, View(), start)
        decreases |pending|, if next in pending then 0 else 1
      {
        if next in pending {
          assert pending.Keys == (pending - {next}).Keys + {next};
          ReleaseContinues(out, View(), start);
          out := out + [pending[next]];
          pending := pending - {next};
          next := next + 1;
          continue;
        }
        if |pending| > window {
          next := OldestPending();
          continue;
        }
        return out;
      }
    }
  }

  /** The frames in `out` and what a drain of `b` still gives are what a drain of `start` gives. */
  ghost predicate Continues(out: seq<Frame>, b: Buffer, start: Buffer) {
    Drained(out + Drain(b).out, Drain(b).buf) == Drain(start)
  }

  lemma ReleaseContinues(out: seq<Frame>, b: Buffer, start: Buffer)
    requires b.next in b.pending && Continues(out, b, start)
    ensures Continues(out + [b.pending[b.next]], Released(b), start)
  {
    var r := Drain(Released(b)).out;
    assert out + ([b.pending[b.next]] + r) == out + [b.pending[b.next]] + r;
  }
}
