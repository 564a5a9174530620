/** The barge-in level-1 detector: `onset` consecutive loud frames start a speech run,
    `hangover` consecutive quiet frames end it. The dBFS comparison of a frame is the
    boolean `loud`. */
module Meter {
  import opened Common

  datatype State = State(above: int, quiet: int, speaking: bool)

  const INITIAL := State(0, 0, false)

  function Next(onset: int, hangover: int, s: State, loud: bool): State {
    if loud then
      State(s.above + 1, 0, s.speaking || s.above + 1 >= onset)
    else if s.speaking then
      if s.quiet + 1 >= hangover then State(0, 0, false) else State(0, s.quiet + 1, true)
    else
      State(0, s.quiet, false)
  }

  class Meter {
    const onset: int
    const hangover: int
    var above: int
    var quiet: int
    var speaking: bool

    ghost function View(): State
      reads this
    {
      State(above, quiet, speaking)
    }

    constructor (onset: int, hangover: int)
      ensures View() == INITIAL && this.onset == onset && this.hangover == hangover
    {
      this.onset, this.hangover := onset, hangover;
      above, quiet, speaking := 0, 0, false;
    }

    method Process(loud: bool) returns (r: bool)
      modifies this
      ensures View() == Next(onset, hangover, old(View()), loud)
      ensures r == View().speaking
    {
      if loud {
        above := above + 1;
        quiet := 0;
        if above >= onset {
          speaking := true;
        }
        return speaking;
      }
      above := 0;
      if speaking {
        quiet := quiet + 1;
        if quiet >= hangover {
          speaking := false;
          quiet := 0;
        }
      }
      return speaking;
    }
  }

  /** The detector after a whole history of frames. */
  function Run(onset: int, hangover: int, h: seq<bool>): State {
    if h == [] then INITIAL
    else Next(onset, hangover, Run(onset, hangover, h[..|h| - 1]), h[|h| - 1])
  }

  /** The `k` frames that end with frame `i` (exclusive bound) all have loudness `b`. */
  ghost predicate RunEnds(h: seq<bool>, i: int, k: nat, b: bool) {
    && k <= i <= |h|
    && forall j :: i - k <= j < i ==> h[j] == b
  }

  /** What the detector is for, without its counters: some run of `onset` loud frames ended
      and no run of `hangover` quiet frames ended after it. A setting below 1 acts as 1. */
  ghost predicate Speaking(onset: int, hangover: int, h: seq<bool>) {
    exists i :: OnsetHolds(onset, hangover, h, i)
  }

  ghost predicate OnsetHolds(onset: int, hangover: int, h: seq<bool>, i: int) {
    && RunEnds(h, i, Max(1, onset), true)
    && forall j :: i < j <= |h| ==> !RunEnds(h, j, Max(1, hangover), false)
  }

  lemma RunEndsPrefix(h: seq<bool>, last: bool, i: int, k: nat, b: bool)
    requires i <= |h|
    ensures RunEnds(h + [last], i, k, b) <==> RunEnds(h, i, k, b)
  {
    forall j | 0 <= j < i ensures (h + [last])[j] == h[j] {}
  }

  /** How many frames at the end of `h` have loudness `b` without a break. */
  function Tail(h: seq<bool>, b: bool): nat {
    if h != [] && h[|h| - 1] == b then 1 + Tail(h[..|h| - 1], b) else 0
  }

  lemma {:induction false} TailIsLongestRun(h: seq<bool>, k: nat, b: bool)
    ensures RunEnds(h, |h|, k, b) <==> k <= Tail(h, b)
  {
    if h != [] && k > 0 {
      var g := h[..|h| - 1];
      TailIsLongestRun(g, k - 1, b);
      RunEndsPrefix(g, h[|h| - 1], |g|, k - 1, b);
      assert h == g + [h[|h| - 1]];
      if h[|h| - 1] == b && RunEnds(g, |g|, k - 1, b) {
        assert forall j :: |h| - k <= j < |h| - 1 ==> h[j] == g[j];
      }
    }
  }

  /** The counters hold the length of the current run, and nothing more. */
  lemma {:induction false} CountersAreTails(onset: int, hangover: int, h: seq<bool>)
    ensures var s := Run(onset, hangover, h);
            && s.above == Tail(h, true)
            && s.quiet == (if s.speaking then Tail(h, false) else 0)
            && (s.speaking ==> s.quiet < Max(1, hangover))
            && (!s.speaking ==> s.above < Max(1, onset))
  {
    if h != [] {
      CountersAreTails(onset, hangover, h[..|h| - 1]);
    }
  }

  /** The detector speaks exactly when its declarative meaning says so, for every history
      and every setting. */
  lemma {:induction false} SpeakingIffOnsetWithoutHangover(onset: int, hangover: int, h: seq<bool>)
    ensures Run(onset, hangover, h).speaking <==> Speaking(onset, hangover, h)
  {
    if h != [] {
      var g, last := h[..|h| - 1], h[|h| - 1];
      assert h == g + [last];
      SpeakingIffOnsetWithoutHangover(onset, hangover, g);
      CountersAreTails(onset, hangover, g);
      CountersAreTails(onset, hangover, h);
      TailIsLongestRun(h, Max(1, onset), true);
      TailIsLongestRun(h, Max(1, hangover), false);
      forall i, k: nat, b | i <= |g| ensures RunEnds(h, i, k, b) <==> RunEnds(g, i, k, b) {
        RunEndsPrefix(g, last, i, k, b);
      }
      if Run(onset, hangover, h).speaking {
        if Run(onset, hangover, g).speaking {
          var i :| OnsetHolds(onset, hangover, g, i);
          assert OnsetHolds(onset, hangover, h, i);
        } else {
          assert OnsetHolds(onset, hangover, h, |h|);
        }
      } else if i :| OnsetHolds(onset, hangover, h, i) {
        if i < |h| {
          assert OnsetHolds(onset, hangover, g, i);
          QuietEndsRun(onset, hangover, g, last);
        }
      }
    }
  }

  /** Leaving the speaking state takes a full run of quiet frames. */
  lemma QuietEndsRun(onset: int, hangover: int, g: seq<bool>, last: bool)
    requires Run(onset, hangover, g).speaking && !Run(onset, hangover, g + [last]).speaking
    ensures RunEnds(g + [last], |g| + 1, Max(1, hangover), false)
  {
    CountersAreTails(onset, hangover, g);
    TailIsLongestRun(g + [last], Max(1, hangover), false);
    assert (g + [last])[..|g|] == g;
  }
}
