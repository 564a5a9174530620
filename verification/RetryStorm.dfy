/** The retry-storm bound over all calls at once: any number of hedged races, sharing one breaker
    per provider, probe an open provider at most once per probe interval. */
module RetryStorm {
  import opened Common
  import opened Hedge
  import B = Breaker

  /** The attempts that ran at a provider because its breaker admitted them. */
  function Probes(c: B.Config, es: seq<Event>, name: string): nat {
    if es == [] then 0
    else
      var u := es[..|es| - 1];
      Probes(c, u, name) + if Probe(c, Run(c, INITIAL, u), es[|es| - 1], name) then 1 else 0
  }

  /** A guarded attempt asks the breaker of `name` and may go ahead. */
  predicate Probe(c: B.Config, s: System, e: Event, name: string) {
    && e.Check? && e.k < |s.races| && s.races[e.k].guarded && At(s.races[e.k], e.side).Starting?
    && NameOf(s.races[e.k], e.side) == name && B.Admits(c, CellOf(s.cells, name), e.now)
  }

  function LastTold(s: System, t: System): seq<(string, B.Event)>
    requires s.log <= t.log
  {
    t.log[|s.log|..]
  }

  lemma {:induction false} HeardConcat(x: seq<(string, B.Event)>, y: seq<(string, B.Event)>, name: string)
    ensures Heard(x + y, name) == Heard(x, name) + Heard(y, name)
  {
    if y == [] {
      assert x + y == x;
    } else {
      assert (x + y)[..|x + y| - 1] == x + y[..|y| - 1];
      HeardConcat(x, y[..|y| - 1], name);
    }
  }

  lemma HeardOne(n: string, e: B.Event, name: string)
    ensures Heard([(n, e)], name) == if n == name then [e] else []
  {
    assert [(n, e)][..0] == [];
  }

  /** One step adds at most one entry to the log, at the reading of its clock. */
  lemma StepLogs(c: B.Config, s: System, e: Event)
    ensures var t := Step(c, s, e);
            || t.log == s.log
            || exists n: string, b :: t.log == s.log + [(n, b)] && Timed(e) && b.now == e.now
  {
    hide B.Step, B.Admits, Looped;
  }

  predicate Timed(e: Event) { e.Check? || e.Resolve? }

  lemma AdmittedOneMore(c: B.Config, h: seq<B.Event>, e: B.Event)
    ensures B.Admitted(c, B.NEW, h + [e])
         == B.Admitted(c, B.NEW, h) + if e.Allow? && B.Admits(c, B.Run(c, B.NEW, h), e.now) then 1 else 0
  {
    assert (h + [e])[..|h|] == h;
  }

  /** What a step adds to a provider's history, and whether that is an admission. */
  lemma StepProbes(c: B.Config, s: System, e: Event, name: string)
    requires CellOf(s.cells, name) == B.Run(c, B.NEW, Heard(s.log, name))
    ensures var g, h := Heard(s.log, name), Heard(Step(c, s, e).log, name);
            B.Admitted(c, B.NEW, h) == B.Admitted(c, B.NEW, g) + if Probe(c, s, e, name) then 1 else 0
  {
    hide Heard, B.Admitted, B.Run, B.Step, B.Admits;
    var g := Heard(s.log, name);
    if e.Check? && e.k < |s.races| {
      ToldHeard(s.log, NameOf(s.races[e.k], e.side), B.Allow(e.now), name);
      AdmittedOneMore(c, g, B.Allow(e.now));
    } else if e.Resolve? && e.k < |s.races| {
      var n := NameOf(s.races[e.k], e.side);
      ToldHeard(s.log, n, B.Success(e.now), name);
      ToldHeard(s.log, n, B.Failure(e.now), name);
      AdmittedOneMore(c, g, B.Success(e.now));
      AdmittedOneMore(c, g, B.Failure(e.now));
    }
  }

  lemma ToldHeard(log: seq<(string, B.Event)>, n: string, e: B.Event, name: string)
    ensures Heard(log + [(n, e)], name) == if n == name then Heard(log, name) + [e] else Heard(log, name)
  {
    HeardConcat(log, [(n, e)], name);
    HeardOne(n, e, name);
  }

  /** The attempts that went ahead are those the provider's history admits. */
  lemma {:induction false} ProbesAreAdmitted(c: B.Config, es: seq<Event>, name: string)
    ensures Probes(c, es, name) == B.Admitted(c, B.NEW, Heard(Run(c, INITIAL, es).log, name))
  {
    if es != [] {
      var u, e := es[..|es| - 1], es[|es| - 1];
      ProbesAreAdmitted(c, u, name);
      BreakerFollowsItsHistory(c, u, name);
      hide Probe, Step, Heard, B.Admitted;
      StepProbes(c, Run(c, INITIAL, u), e, name);
    }
  }

  // --- the clock

  /** The readings of the clock do not go back, and none is after `until`. */
  ghost predicate Clocked(es: seq<Event>, until: int) {
    && (forall i :: 0 <= i < |es| && Timed(es[i]) ==> es[i].now <= until)
    && forall i, j :: 0 <= i < j < |es| && Timed(es[i]) && Timed(es[j]) ==> es[i].now <= es[j].now
  }

  ghost predicate LogClocked(log: seq<(string, B.Event)>, until: int) {
    && (forall i :: 0 <= i < |log| ==> log[i].1.now <= until)
    && forall i, j :: 0 <= i < j < |log| ==> log[i].1.now <= log[j].1.now
  }

  ghost predicate HeardClocked(h: seq<B.Event>, until: int) {
    && (forall i :: 0 <= i < |h| ==> h[i].now <= until)
    && forall i, j :: 0 <= i < j < |h| ==> h[i].now <= h[j].now
  }

  lemma ClockedFront(es: seq<Event>, until: int)
    requires es != [] && Clocked(es, until)
    ensures var u, e := es[..|es| - 1], es[|es| - 1];
            Clocked(u, if Timed(e) then e.now else until) && (Timed(e) ==> e.now <= until)
  {}

  lemma LogGrows(log: seq<(string, B.Event)>, n: string, b: B.Event, until: int)
    requires LogClocked(log, b.now) && b.now <= until
    ensures LogClocked(log + [(n, b)], until)
  {}

  lemma {:induction false} RunClocked(c: B.Config, es: seq<Event>, until: int)
    requires Clocked(es, until)
    ensures LogClocked(Run(c, INITIAL, es).log, until)
  {
    if es != [] {
      var u, e := es[..|es| - 1], es[|es| - 1];
      var s := Run(c, INITIAL, u);
      ClockedFront(es, until);
      RunClocked(c, u, if Timed(e) then e.now else until);
      StepLogs(c, s, e);
      hide Step, Clocked;
      var t := Step(c, s, e);
      if t.log != s.log {
        var n: string, b :| t.log == s.log + [(n, b)] && Timed(e) && b.now == e.now;
        LogGrows(s.log, n, b, until);
      }
    }
  }

  lemma {:induction false} HeardIsClocked(log: seq<(string, B.Event)>, name: string, until: int)
    requires LogClocked(log, until)
    ensures HeardClocked(Heard(log, name), until)
  {
    if log != [] {
      var (n, e) := log[|log| - 1];
      assert LogClocked(log[..|log| - 1], e.now);
      HeardIsClocked(log[..|log| - 1], name, e.now);
      var h := Heard(log[..|log| - 1], name);
      assert h + [] == h;
      hide LogClocked;
    }
  }

  /** A breaker that is not closed was opened at the time of some event it heard. */
  lemma {:induction false} OpenedAtEvent(c: B.Config, g: seq<B.Event>)
    ensures B.Run(c, B.NEW, g).state.Closed? || exists i :: 0 <= i < |g| && g[i].now == B.Run(c, B.NEW, g).openedAt
  {
    if g != [] {
      var u, e := g[..|g| - 1], g[|g| - 1];
      OpenedAtEvent(c, u);
      var b := B.Run(c, B.NEW, u);
      if i :| 0 <= i < |u| && u[i].now == b.openedAt { assert g[i] == u[i]; }
      assert g[|g| - 1].now == e.now;
    }
  }

  // --- the bound

  lemma {:induction false} LogExtends(c: B.Config, es: seq<Event>, more: seq<Event>)
    ensures Run(c, INITIAL, es).log <= Run(c, INITIAL, es + more).log
  {
    if more == [] {
      assert es + more == es;
    } else {
      assert (es + more)[..|es + more| - 1] == es + more[..|more| - 1];
      LogExtends(c, es, more[..|more| - 1]);
      StepLogs(c, Run(c, INITIAL, es + more[..|more| - 1]), more[|more| - 1]);
      hide Step;
    }
  }

  /** What the breaker of `name` hears during `more`, after `es`. */
  function HeardDuring(c: B.Config, es: seq<Event>, more: seq<Event>, name: string): seq<B.Event> {
    LogExtends(c, es, more);
    Heard(LastTold(Run(c, INITIAL, es), Run(c, INITIAL, es + more)), name)
  }

  lemma HeardSplits(c: B.Config, es: seq<Event>, more: seq<Event>, name: string)
    ensures Heard(Run(c, INITIAL, es + more).log, name)
         == Heard(Run(c, INITIAL, es).log, name) + HeardDuring(c, es, more, name)
  {
    LogExtends(c, es, more);
    var x, y := Run(c, INITIAL, es).log, Run(c, INITIAL, es + more).log;
    assert y == x + y[|x|..];
    hide Run;
    HeardConcat(x, y[|x|..], name);
  }

  lemma LaterIsLater(c: B.Config, g: seq<B.Event>, h: seq<B.Event>, until: int)
    requires HeardClocked(g + h, until) && B.Run(c, B.NEW, g).state.Open?
    ensures var openedAt := B.Run(c, B.NEW, g).openedAt;
            openedAt <= until && B.Monotone(openedAt, h) && B.EndOf(openedAt, h) <= until
  {
    OpenedAtEvent(c, g);
    var i :| 0 <= i < |g| && g[i].now == B.Run(c, B.NEW, g).openedAt;
    var gh := g + h;
    assert gh[i] == g[i];
    forall j | 0 <= j < |h| ensures g[i].now <= h[j].now <= until { assert gh[|g| + j] == h[j]; }
    forall j, k | 0 <= j < k < |h| ensures h[j].now <= h[k].now { assert gh[|g| + j] == h[j] && gh[|g| + k] == h[k]; }
  }

  lemma DivideMore(n: int, a: int, b: int, p: int)
    requires p > 0 && n <= a / p && a <= b
    ensures n <= b / p
  {
    var q := a / p;
    assert q * p <= a;
    assert (q - n) * p >= 0;
    assert n * p == q * p - (q - n) * p;
    B.DivideBound(n, b, p);
  }

  /** The bound for one history, up to any later time. */
  lemma HistoryBound(c: B.Config, g: seq<B.Event>, h: seq<B.Event>, until: int)
    requires c.probeEvery > 0 && HeardClocked(g + h, until) && B.Run(c, B.NEW, g).state.Open? && B.NoSuccess(h)
    ensures B.Admitted(c, B.NEW, g + h) - B.Admitted(c, B.NEW, g)
         <= (until - B.Run(c, B.NEW, g).openedAt) / c.probeEvery
  {
    hide B.Run, B.Admitted, B.EndOf, B.Monotone, HeardClocked, B.NoSuccess;
    LaterIsLater(c, g, h, until);
    B.AtMostOneProbePerInterval(c, g, h);
    var openedAt := B.Run(c, B.NEW, g).openedAt;
    DivideMore(B.Admitted(c, B.NEW, g + h) - B.Admitted(c, B.NEW, g), B.EndOf(openedAt, h) - openedAt, until - openedAt,
               c.probeEvery);
  }

  /** However many calls race, retry and hedge: from a moment at which a provider's breaker is
      open until its next success, at most one attempt per probe interval reaches the provider,
      counting the time from the opening. */
  lemma AllCallsProbeOncePerInterval(c: B.Config, es: seq<Event>, more: seq<Event>, name: string, until: int)
    requires c.probeEvery > 0 && Clocked(es + more, until)
    requires CellOf(Run(c, INITIAL, es).cells, name).state.Open?
    requires B.NoSuccess(HeardDuring(c, es, more, name))
    ensures Probes(c, es + more, name) - Probes(c, es, name)
         <= (until - CellOf(Run(c, INITIAL, es).cells, name).openedAt) / c.probeEvery
  {
    hide Run, Probes, Heard, HeardDuring, HeardClocked, LogClocked, Clocked, CellOf, B.Run, B.Admitted, B.NoSuccess;
    ProbesAreAdmitted(c, es, name);
    ProbesAreAdmitted(c, es + more, name);
    BreakerFollowsItsHistory(c, es, name);
    HeardSplits(c, es, more, name);
    RunClocked(c, es + more, until);
    HeardIsClocked(Run(c, INITIAL, es + more).log, name, until);
    HistoryBound(c, Heard(Run(c, INITIAL, es).log, name), HeardDuring(c, es, more, name), until);
  }
}
