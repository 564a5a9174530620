/** The circuit breaker of one provider, shared by every call, and the registry of breakers.
    Every step takes the clock reading it makes. */
module Breaker {
  import opened Common

  datatype State = Closed | Open | HalfOpen

  datatype Config = Config(maxFailures: int, probeEvery: int)

  datatype Cell = Cell(state: State, failures: nat, openedAt: int, probing: bool)

  const NEW := Cell(Closed, 0, 0, false)

  datatype Event = Allow(now: int) | Success(now: int) | Failure(now: int)

  predicate Admits(c: Config, b: Cell, now: int) {
    b.state.Closed? || (b.state.Open? && now - b.openedAt >= c.probeEvery)
  }

  function Step(c: Config, b: Cell, e: Event): Cell {
    match e
    case Allow(now) =>
      if b.state.Open? && Admits(c, b, now) then b.(state := HalfOpen, probing := true) else b
    case Success(_) => b.(state := Closed, failures := 0, probing := false)
    case Failure(now) =>
      match b.state
      case HalfOpen => b.(state := Open, openedAt := now, probing := false)
      case Closed =>
        var n := b.failures + 1;
        if n >= c.maxFailures then b.(failures := n, state := Open, openedAt := now) else b.(failures := n)
      case Open => b
  }

  function Run(c: Config, b: Cell, h: seq<Event>): Cell {
    if h == [] then b else Step(c, Run(c, b, h[..|h| - 1]), h[|h| - 1])
  }

  /** How many attempts a history admits. */
  function Admitted(c: Config, b: Cell, h: seq<Event>): nat {
    if h == [] then 0
    else
      var e := h[|h| - 1];
      Admitted(c, b, h[..|h| - 1]) + if e.Allow? && Admits(c, Run(c, b, h[..|h| - 1]), e.now) then 1 else 0
  }

  // --- no retry storm

  ghost predicate Monotone(from: int, h: seq<Event>) {
    && (forall i :: 0 <= i < |h| ==> from <= h[i].now)
    && forall i, j :: 0 <= i < j < |h| ==> h[i].now <= h[j].now
  }

  ghost predicate NoSuccess(h: seq<Event>) { forall i :: 0 <= i < |h| ==> !h[i].Success? }

  /** The clock at the end of a history. */
  function EndOf(from: int, h: seq<Event>): int { if h == [] then from else h[|h| - 1].now }

  /** One probe interval for every attempt admitted. */
  function Reserved(c: Config, b: Cell, h: seq<Event>): int {
    if h == [] then 0
    else
      var e := h[|h| - 1];
      Reserved(c, b, h[..|h| - 1])
      + if e.Allow? && Admits(c, Run(c, b, h[..|h| - 1]), e.now) then c.probeEvery else 0
  }

  lemma {:induction false} ReservedIsProduct(c: Config, b: Cell, h: seq<Event>)
    ensures Reserved(c, b, h) == Admitted(c, b, h) * c.probeEvery
  {
    if h != [] {
      ReservedIsProduct(c, b, h[..|h| - 1]);
      var n := Admitted(c, b, h[..|h| - 1]);
      assert (n + 1) * c.probeEvery == n * c.probeEvery + c.probeEvery;
    }
  }

  /** Without a success a breaker never closes again, and every admitted attempt has used up a
      probe interval of its own. */
  lemma {:induction false} ProbesAreSpaced(c: Config, b: Cell, h: seq<Event>)
    requires b.state.Open? && Monotone(b.openedAt, h) && NoSuccess(h) && c.probeEvery >= 0
    ensures var r := Run(c, b, h);
            && !r.state.Closed? && b.openedAt <= r.openedAt <= EndOf(b.openedAt, h)
            && Reserved(c, b, h) <= (if r.state.Open? then r.openedAt else EndOf(b.openedAt, h)) - b.openedAt
  {
    if h != [] {
      var g, e := h[..|h| - 1], h[|h| - 1];
      ProbesAreSpaced(c, b, g);
      assert EndOf(b.openedAt, g) <= e.now;
    }
  }

  lemma {:induction false} RunAppend(c: Config, b: Cell, g: seq<Event>, h: seq<Event>)
    ensures Run(c, b, g + h) == Run(c, Run(c, b, g), h)
    ensures Admitted(c, b, g + h) == Admitted(c, b, g) + Admitted(c, Run(c, b, g), h)
  {
    if h == [] {
      assert g + h == g;
    } else {
      assert (g + h)[..|g + h| - 1] == g + h[..|h| - 1];
      RunAppend(c, b, g, h[..|h| - 1]);
    }
  }

  /** Retry-storm bound. Whatever all calls together do: from a moment at which the breaker is
      open until the next success, the attempts admitted within `T` number at most
      `T / probeEvery`, counting `T` from the opening. */
  lemma AtMostOneProbePerInterval(c: Config, g: seq<Event>, h: seq<Event>)
    requires c.probeEvery > 0 && NoSuccess(h)
    requires Run(c, NEW, g).state.Open? && Monotone(Run(c, NEW, g).openedAt, h)
    ensures var openedAt := Run(c, NEW, g).openedAt;
            Admitted(c, NEW, g + h) - Admitted(c, NEW, g) <= (EndOf(openedAt, h) - openedAt) / c.probeEvery
  {
    var b := Run(c, NEW, g);
    RunAppend(c, NEW, g, h);
    ProbesAreSpaced(c, b, h);
    ReservedIsProduct(c, b, h);
    var n, t := Admitted(c, b, h), EndOf(b.openedAt, h) - b.openedAt;
    DivideBound(n, t, c.probeEvery);
  }

  lemma DivideBound(n: int, t: int, p: int)
    requires p > 0 && n * p <= t
    ensures n <= t / p
  {
    var q := t / p;
    assert (q + 1) * p == q * p + p;
    CancelFactor(n, q + 1, p);
  }

  lemma CancelFactor(a: int, b: int, p: int)
    requires p > 0 && a * p < b * p
    ensures a < b
  {
    assert a >= b ==> (a - b) * p >= 0;
  }

  /** The breaker opens at the configured number of failures in a row, and not before. */
  lemma {:induction false} OpensAtMaxFailures(c: Config, h: seq<Event>)
    requires forall i :: 0 <= i < |h| ==> !h[i].Success?
    ensures var n := Failures(h);
            && (n == 0 || n < c.maxFailures ==> Run(c, NEW, h).state.Closed? && Run(c, NEW, h).failures == n)
            && (n > 0 && n >= c.maxFailures ==> !Run(c, NEW, h).state.Closed?)
  {
    if h != [] {
      OpensAtMaxFailures(c, h[..|h| - 1]);
    }
  }

  function Failures(h: seq<Event>): nat {
    if h == [] then 0 else Failures(h[..|h| - 1]) + if h[|h| - 1].Failure? then 1 else 0
  }

  /** While nobody reports, a half-open breaker admits nobody and stays half-open. */
  lemma {:induction false} HalfOpenWaitsForReport(c: Config, b: Cell, h: seq<Event>)
    requires b.state.HalfOpen? && forall i :: 0 <= i < |h| ==> h[i].Allow?
    ensures Run(c, b, h) == b && Admitted(c, b, h) == 0
  {
    if h != [] {
      HalfOpenWaitsForReport(c, b, h[..|h| - 1]);
    }
  }

  // --- the objects

  class ProviderBreaker {
    const cfg: Config
    var state: State
    var failures: nat
    var openedAt: int
    var probing: bool

    ghost function View(): Cell
      reads this
    {
      Cell(state, failures, openedAt, probing)
    }

    constructor (cfg: Config)
      ensures View() == NEW && this.cfg == cfg
    {
      this.cfg := cfg;
      state, failures, openedAt, probing := Closed, 0, 0, false;
    }

    method AllowAttempt(now: int) returns (ok: bool)
      modifies this
      ensures ok == Admits(cfg, old(View()), now)
      ensures View() == Step(cfg, old(View()), Allow(now))
    {
      match state {
        case Closed => return true;
        case HalfOpen => return false;
        case Open =>
          if now - openedAt < cfg.probeEvery {
            return false;
          }
          state := HalfOpen;
          probing := true;
          return true;
      }
    }

    method ReportSuccess(now: int)
      modifies this
      ensures View() == Step(cfg, old(View()), Success(now))
    {
      state := Closed;
      failures := 0;
      probing := false;
    }

    method ReportFailure(now: int)
      modifies this
      ensures View() == Step(cfg, old(View()), Failure(now))
    {
      match state {
        case HalfOpen =>
          state := Open;
          openedAt := now;
          probing := false;
        case Closed =>
          failures := failures + 1;
          if failures >= cfg.maxFailures {
            state := Open;
            openedAt := now;
          }
        case Open =>
      }
    }
  }

  class Registry {
    const cfg: Config
    var breakers: map<string, ProviderBreaker>

    constructor (cfg: Config)
      ensures breakers == map[] && this.cfg == cfg
    {
      this.cfg := cfg;
      breakers := map[];
    }

    /** One breaker per provider name for the whole process: a known name gives the object it
        always gave, a new name a new closed breaker. */
    method For(provider: string) returns (b: ProviderBreaker)
      modifies this
      ensures breakers == old(breakers)[provider := b]
      ensures if provider in old(breakers) then b == old(breakers[provider])
              else fresh(b) && b.View() == NEW && b.cfg == cfg
    {
      if provider in breakers {
        b := breakers[provider];
      } else {
        b := new ProviderBreaker(cfg);
      }
      breakers := breakers[provider := b];
    }
  }
}
