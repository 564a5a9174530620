/** The hedged completion race: any number of concurrent calls, each racing a primary against
    a late secondary, over one registry of breakers. One step is one arm of a select, one
    breaker check or one provider answer; steps of all calls interleave freely. */
module Hedge {
  import opened Common
  import B = Breaker

  datatype Attempt = Idle | Starting | Running | Finished

  datatype Reply = Text(text: string) | Failed

  datatype Outcome = Won(text: string) | AllFailed | Cancelled

  /** A provider answers, fails, or ends because its context was cancelled. */
  datatype Answer = Completed(text: string) | Broken | CancelledMidFlight

  datatype Race = Race(primaryName: string, secondaryName: string, guarded: bool,
                       primary: Attempt, secondary: Attempt, launched: nat, secondaryStarted: bool,
                       errs: nat, results: seq<Reply>, outcome: Option<Outcome>)

  datatype Side = Primary | Secondary

  datatype Event =
    | Begin(primaryName: string, secondaryName: string, guarded: bool)
    | Check(k: nat, side: Side, now: int)
    | Resolve(k: nat, side: Side, answer: Answer, now: int)
    | Timer(k: nat)
    | ContextDone(k: nat)
    | Receive(k: nat)

  datatype System = System(cells: map<string, B.Cell>, races: seq<Race>, log: seq<(string, B.Event)>)

  const INITIAL := System(map[], [], [])

  function CellOf(cells: map<string, B.Cell>, name: string): B.Cell {
    if name in cells then cells[name] else B.NEW
  }

  function At(r: Race, side: Side): Attempt { if side.Primary? then r.primary else r.secondary }

  function NameOf(r: Race, side: Side): string { if side.Primary? then r.primaryName else r.secondaryName }

  function Set(r: Race, side: Side, a: Attempt): Race {
    if side.Primary? then r.(primary := a) else r.(secondary := a)
  }

  function Begun(primaryName: string, secondaryName: string, guarded: bool): Race {
    Race(primaryName, secondaryName, guarded, Starting, Idle, 1, false, 0, [], None)
  }

  function LaunchSecondary(r: Race): Race {
    r.(secondaryStarted := true, secondary := Starting, launched := r.launched + 1)
  }

  /** A breaker hears of an event. */
  function Tell(c: B.Config, s: System, name: string, e: B.Event): System {
    s.(cells := s.cells[name := B.Step(c, CellOf(s.cells, name), e)], log := s.log + [(name, e)])
  }

  /** The goroutine of an attempt asks its breaker first. */
  function Checked(c: B.Config, s: System, k: nat, side: Side, now: int): System
    requires k < |s.races|
  {
    var r := s.races[k];
    var name := NameOf(r, side);
    if !At(r, side).Starting? then s
    else if !r.guarded then s.(races := s.races[k := Set(r, side, Running)])
    else
      var t := Tell(c, s, name, B.Allow(now));
      if B.Admits(c, CellOf(s.cells, name), now) then t.(races := s.races[k := Set(r, side, Running)])
      else t.(races := s.races[k := Set(r, side, Finished).(results := r.results + [Failed])])
  }

  /** A provider answers; a cancelled loser is reported to nobody. */
  function Resolved(c: B.Config, s: System, k: nat, side: Side, answer: Answer, now: int): System
    requires k < |s.races|
  {
    var r := s.races[k];
    if !At(r, side).Running? then s
    else
      var reply := if answer.Completed? then Text(answer.text) else Failed;
      var t := if !r.guarded || answer.CancelledMidFlight? then s
               else Tell(c, s, NameOf(r, side), if answer.Completed? then B.Success(now) else B.Failure(now));
      t.(races := s.races[k := Set(r, side, Finished).(results := r.results + [reply])])
  }

  /** What the loop's goroutine knows after one result. */
  function OnResult(r: Race, reply: Reply): Race {
    match reply
    case Text(text) => r.(outcome := Some(Won(text)))
    case Failed =>
      var e := r.(errs := r.errs + 1);
      if !r.secondaryStarted then LaunchSecondary(e)
      else if e.errs == e.launched then e.(outcome := Some(AllFailed))
      else e
  }

  function Received(r: Race): Race {
    if r.results == [] then r else OnResult(r.(results := r.results[1..]), r.results[0])
  }

  /** An arm of the select loop of call `k`; the loop is over once there is an outcome. */
  function Looped(r: Race, e: Event): Race {
    if r.outcome.Some? then r
    else
      match e
      case Timer(_) => if r.secondaryStarted then r else LaunchSecondary(r)
      case ContextDone(_) => r.(outcome := Some(Cancelled))
      case Receive(_) => Received(r)
      case _ => r
  }

  function Step(c: B.Config, s: System, e: Event): System {
    match e
    case Begin(p, q, guarded) => s.(races := s.races + [Begun(p, q, guarded)])
    case Check(k, side, now) => if k < |s.races| then Checked(c, s, k, side, now) else s
    case Resolve(k, side, answer, now) => if k < |s.races| then Resolved(c, s, k, side, answer, now) else s
    case _ => if e.k < |s.races| then s.(races := s.races[e.k := Looped(s.races[e.k], e)]) else s
  }

  function Run(c: B.Config, s: System, es: seq<Event>): System {
    if es == [] then s else Step(c, Run(c, s, es[..|es| - 1]), es[|es| - 1])
  }

  // --- one race

  function Ended(a: Attempt): nat { if a.Finished? then 1 else 0 }

  function FailedIn(rs: seq<Reply>): nat {
    if rs == [] then 0 else (if rs[0].Failed? then 1 else 0) + FailedIn(rs[1..])
  }

  /** Each finished attempt has delivered one result; what was received is counted. */
  ghost predicate Fair(r: Race) {
    && !r.primary.Idle?
    && (r.secondary.Idle? <==> !r.secondaryStarted)
    && r.launched == (if r.secondaryStarted then 2 else 1)
    && (r.errs > 0 ==> r.secondaryStarted)
    && r.errs + |r.results| + (if r.outcome.Some? && r.outcome.value.Won? then 1 else 0)
       == Ended(r.primary) + Ended(r.secondary)
    && (r.outcome == Some(AllFailed) ==> r.errs == 2)
  }

  lemma LoopedFair(r: Race, e: Event)
    requires Fair(r)
    ensures Fair(Looped(r, e))
  {}

  lemma AttemptFair(r: Race, side: Side, reply: Reply)
    requires Fair(r)
    ensures At(r, side).Starting? ==> Fair(Set(r, side, Running))
    ensures At(r, side).Starting? || At(r, side).Running? ==>
              Fair(Set(r, side, Finished).(results := r.results + [reply]))
  {}

  lemma StepFair(c: B.Config, s: System, e: Event)
    requires forall k :: 0 <= k < |s.races| ==> Fair(s.races[k])
    ensures forall k :: 0 <= k < |Step(c, s, e).races| ==> Fair(Step(c, s, e).races[k])
  {
    hide Fair, Looped;
    match e
    case Begin(p, q, guarded) => BegunFair(p, q, guarded);
    case Check(k, side, _) =>
      if k < |s.races| { AttemptFair(s.races[k], side, Failed); }
    case Resolve(k, side, answer, _) =>
      if k < |s.races| {
        AttemptFair(s.races[k], side, if answer.Completed? then Text(answer.text) else Failed);
      }
    case _ =>
      if e.k < |s.races| { LoopedFair(s.races[e.k], e); }
  }

  lemma BegunFair(p: string, q: string, guarded: bool)
    ensures Fair(Begun(p, q, guarded))
  {}

  /** Over every interleaving: the secondary is launched at most once, at most two results are
      ever pending so no attempt blocks on delivering its own, and a call reports all-failed
      only after both attempts finished and both were received as failures. */
  lemma {:induction false} RacesAreFair(c: B.Config, es: seq<Event>, k: nat)
    requires k < |Run(c, INITIAL, es).races|
    ensures var r := Run(c, INITIAL, es).races[k];
            && Fair(r)
            && r.launched <= 2 && |r.results| <= 2
            && (r.outcome == Some(AllFailed) ==>
                  r.primary.Finished? && r.secondary.Finished? && r.errs == 2 && r.results == [])
  {
    AllFair(c, es);
  }

  lemma {:induction false} AllFair(c: B.Config, es: seq<Event>)
    ensures forall k :: 0 <= k < |Run(c, INITIAL, es).races| ==> Fair(Run(c, INITIAL, es).races[k])
  {
    if es != [] {
      AllFair(c, es[..|es| - 1]);
      StepFair(c, Run(c, INITIAL, es[..|es| - 1]), es[|es| - 1]);
    }
  }

  /** Step `j` starts the secondary of call `k`, unless it runs already: the race is on, and the
      timer fires or a failure is received. */
  ghost predicate Triggers(c: B.Config, es: seq<Event>, j: nat, k: nat)
    requires j < |es|
  {
    var s := Run(c, INITIAL, es[..j]);
    k < |s.races| && StartsSecondary(s.races[k], es[j], k)
  }

  predicate StartsSecondary(r: Race, e: Event, k: nat) {
    r.outcome.None? && (e == Timer(k) || (e == Receive(k) && r.results != [] && r.results[0].Failed?))
  }

  lemma StepStarts(c: B.Config, s: System, e: Event, k: nat)
    requires k < |s.races|
    ensures k < |Step(c, s, e).races|
    ensures Step(c, s, e).races[k].secondaryStarted
       <==> s.races[k].secondaryStarted || StartsSecondary(s.races[k], e, k)
  {
    hide Tell, B.Admits;
  }

  lemma {:induction false} RacesGrow(c: B.Config, es: seq<Event>, j: nat)
    requires j <= |es|
    ensures |Run(c, INITIAL, es[..j]).races| <= |Run(c, INITIAL, es).races|
  {
    if j == |es| {
      assert es[..j] == es;
    } else {
      var u := es[..|es| - 1];
      assert u[..j] == es[..j];
      RacesGrow(c, u, j);
      StepGrows(c, Run(c, INITIAL, u), es[|es| - 1]);
      hide Step;
    }
  }

  lemma StepGrows(c: B.Config, s: System, e: Event)
    ensures |Step(c, s, e).races| == |s.races| + if e.Begin? then 1 else 0
    ensures e.Begin? ==> Step(c, s, e).races[|s.races|] == Begun(e.primaryName, e.secondaryName, e.guarded)
  {
    hide Tell, B.Admits, Looped, Begun;
  }

  ghost predicate Triggered(c: B.Config, es: seq<Event>, k: nat) { exists j :: 0 <= j < |es| && Triggers(c, es, j, k) }

  lemma TriggeredOneMore(c: B.Config, u: seq<Event>, e: Event, k: nat)
    ensures Triggered(c, u + [e], k) <==> Triggered(c, u, k) || Triggers(c, u + [e], |u|, k)
  {
    var es := u + [e];
    forall j | 0 <= j < |u| ensures Triggers(c, es, j, k) <==> Triggers(c, u, j, k) { assert es[..j] == u[..j]; }
    hide Triggers;
    if j :| 0 <= j < |es| && Triggers(c, es, j, k) { assert j < |u| || j == |u|; }
    if j :| 0 <= j < |u| && Triggers(c, u, j, k) { assert Triggers(c, es, j, k); }
  }

  /** Over every interleaving, a call has a second attempt exactly when the timer fired or a
      failure was received while the race was on; so a primary that fails before the timer is
      always hedged, and all-failed is never reported before the second attempt ended too. */
  lemma {:induction false} SecondaryStartsIff(c: B.Config, es: seq<Event>, k: nat)
    requires k < |Run(c, INITIAL, es).races|
    ensures var r := Run(c, INITIAL, es).races[k];
            && (!r.secondary.Idle? <==> Triggered(c, es, k))
            && (r.outcome == Some(AllFailed) ==> Triggered(c, es, k) && r.secondary.Finished?)
  {
    RacesAreFair(c, es, k);
    SecondaryTriggered(c, es, k);
    hide Run, Triggered;
  }

  lemma {:induction false} SecondaryTriggered(c: B.Config, es: seq<Event>, k: nat)
    requires k < |Run(c, INITIAL, es).races|
    ensures Run(c, INITIAL, es).races[k].secondaryStarted <==> Triggered(c, es, k)
  {
    if es != [] {
      var u, e := es[..|es| - 1], es[|es| - 1];
      assert es == u + [e];
      var s := Run(c, INITIAL, u);
      TriggeredOneMore(c, u, e, k);
      assert es[..|u|] == u;
      StepGrows(c, s, e);
      hide Triggered, Step, StartsSecondary;
      if k < |s.races| {
        SecondaryTriggered(c, u, k);
        StepStarts(c, s, e, k);
      } else {
        NotYetTriggered(c, u, k);
      }
    }
  }

  lemma NotYetTriggered(c: B.Config, es: seq<Event>, k: nat)
    requires k >= |Run(c, INITIAL, es).races|
    ensures !Triggered(c, es, k)
  {
    forall j | 0 <= j < |es| ensures !Triggers(c, es, j, k) { RacesGrow(c, es, j); }
  }

  /** What the select of the loop picked. */
  datatype Arm = TimerFired | Done | Result(reply: Reply)

  function Picked(r: Race, arm: Arm): Race {
    if r.outcome.Some? then r
    else
      match arm
      case TimerFired => if r.secondaryStarted then r else LaunchSecondary(r)
      case Done => r.(outcome := Some(Cancelled))
      case Result(reply) => OnResult(r, reply)
  }

  function PickedAll(r: Race, arms: seq<Arm>): Race {
    if arms == [] then r else Picked(PickedAll(r, arms[..|arms| - 1]), arms[|arms| - 1])
  }

  lemma {:induction false} OutcomeIsFinal(r: Race, arms: seq<Arm>, n: nat)
    requires n <= |arms| && PickedAll(r, arms[..n]).outcome.Some?
    ensures PickedAll(r, arms) == PickedAll(r, arms[..n])
  {
    if n == |arms| {
      assert arms[..n] == arms;
    } else {
      assert arms[..|arms| - 1][..n] == arms[..n];
      OutcomeIsFinal(r, arms[..|arms| - 1], n);
    }
  }

  /** What the locals of the loop say about a race that is still on. */
  predicate Racing(r: Race, launched: nat, errs: nat, secondaryStarted: bool) {
    r.outcome.None? && r.launched == launched && r.errs == errs && r.secondaryStarted == secondaryStarted
  }

  /** The loop of one call, over the arms its select picks. */
  method Complete(primaryName: string, secondaryName: string, guarded: bool, arms: seq<Arm>)
    returns (outcome: Option<Outcome>, launched: nat, errs: nat)
    ensures outcome == PickedAll(Begun(primaryName, secondaryName, guarded), arms).outcome
    ensures launched == PickedAll(Begun(primaryName, secondaryName, guarded), arms).launched
    ensures errs == PickedAll(Begun(primaryName, secondaryName, guarded), arms).errs
  {
    ghost var r := Begun(primaryName, secondaryName, guarded);
    launched, errs := 1, 0;
    var secondaryStarted := false;
    for i := 0 to |arms|
      invariant Racing(PickedAll(r, arms[..i]), launched, errs, secondaryStarted)
    {
      assert arms[..i + 1][..i] == arms[..i];
      match arms[i] {
        case Done =>
          OutcomeIsFinal(r, arms, i + 1);
          return Some(Cancelled), launched, errs;
        case TimerFired =>
          if !secondaryStarted {
            secondaryStarted := true;
            launched := launched + 1;
          }
        case Result(Text(text)) =>
          OutcomeIsFinal(r, arms, i + 1);
          return Some(Won(text)), launched, errs;
        case Result(Failed) =>
          errs := errs + 1;
          if !secondaryStarted {
            secondaryStarted := true;
            launched := launched + 1;
            continue;
          }
          if errs == launched {
            OutcomeIsFinal(r, arms, i + 1);
            return Some(AllFailed), launched, errs;
          }
      }
    }
    assert arms[..|arms|] == arms;
    return None, launched, errs;
  }

  // --- all races against one breaker

  /** What the breaker of `name` has heard, in order. */
  function Heard(log: seq<(string, B.Event)>, name: string): seq<B.Event> {
    if log == [] then []
    else
      var (n, e) := log[|log| - 1];
      Heard(log[..|log| - 1], name) + if n == name then [e] else []
  }

  /** The shared breaker of a provider is in the state its own history gives, whichever calls
      that history came from; other providers do not touch it. */
  lemma {:induction false} BreakerFollowsItsHistory(c: B.Config, es: seq<Event>, name: string)
    ensures var s := Run(c, INITIAL, es);
            CellOf(s.cells, name) == B.Run(c, B.NEW, Heard(s.log, name))
  {
    if es != [] {
      var s, e := Run(c, INITIAL, es[..|es| - 1]), es[|es| - 1];
      BreakerFollowsItsHistory(c, es[..|es| - 1], name);
      StepTells(c, s, e, name);
    }
  }

  lemma TellFollows(c: B.Config, s: System, n: string, e: B.Event, name: string)
    requires CellOf(s.cells, name) == B.Run(c, B.NEW, Heard(s.log, name))
    ensures var t := Tell(c, s, n, e); CellOf(t.cells, name) == B.Run(c, B.NEW, Heard(t.log, name))
  {
    var t, h := Tell(c, s, n, e), Heard(s.log, name);
    assert t.log[..|t.log| - 1] == s.log;
    assert (h + [e])[..|h|] == h && h + [] == h;
  }

  lemma StepTells(c: B.Config, s: System, e: Event, name: string)
    requires CellOf(s.cells, name) == B.Run(c, B.NEW, Heard(s.log, name))
    ensures var t := Step(c, s, e); CellOf(t.cells, name) == B.Run(c, B.NEW, Heard(t.log, name))
  {
    hide B.Run, Heard, B.Step;
    match e
    case Check(k, side, now) =>
      if k < |s.races| { TellFollows(c, s, NameOf(s.races[k], side), B.Allow(now), name); }
    case Resolve(k, side, answer, now) =>
      if k < |s.races| {
        TellFollows(c, s, NameOf(s.races[k], side), B.Success(now), name);
        TellFollows(c, s, NameOf(s.races[k], side), B.Failure(now), name);
      }
    case _ =>
  }

  // --- the half-open breaker whose probe was cancelled

  /** Some call has a guarded attempt in flight at `name`. */
  ghost predicate Flying(r: Race, side: Side, name: string) {
    r.guarded && NameOf(r, side) == name && At(r, side).Running?
  }

  ghost predicate InFlight(s: System, name: string) {
    exists k, side :: 0 <= k < |s.races| && Flying(s.races[k], side, name)
  }

  ghost predicate Stuck(s: System, name: string) {
    CellOf(s.cells, name).state.HalfOpen? && !InFlight(s, name)
  }

  lemma RaceStaysGrounded(r: Race, e: Event, name: string)
    requires forall side :: !Flying(r, side, name)
    ensures forall side :: !Flying(Looped(r, e), side, name)
  {
    forall side ensures !Flying(Looped(r, e), side, name) {
      assert !Flying(r, side, name);
    }
  }

  lemma StepStaysStuck(c: B.Config, s: System, e: Event, name: string)
    requires Stuck(s, name)
    ensures Stuck(Step(c, s, e), name) && CellOf(Step(c, s, e).cells, name) == CellOf(s.cells, name)
  {
    var t := Step(c, s, e);
    forall k, side | 0 <= k < |s.races| ensures !Flying(s.races[k], side, name) {}
    assert CellOf(t.cells, name) == CellOf(s.cells, name) by {
      if e.Resolve? && e.k < |s.races| { assert !Flying(s.races[e.k], e.side, name); }
    }
    forall k, side | 0 <= k < |t.races| ensures !Flying(t.races[k], side, name) {
      if k < |s.races| {
        assert !Flying(s.races[k], side, name);
        if !e.Begin? && !e.Check? && !e.Resolve? {
          RaceStaysGrounded(s.races[k], e, name);
        }
      }
    }
  }

  lemma {:induction false} StuckForever(c: B.Config, s: System, es: seq<Event>, name: string)
    requires Stuck(s, name)
    ensures Stuck(Run(c, s, es), name) && CellOf(Run(c, s, es).cells, name) == CellOf(s.cells, name)
  {
    if es != [] {
      StuckForever(c, s, es[..|es| - 1], name);
      StepStaysStuck(c, Run(c, s, es[..|es| - 1]), es[|es| - 1], name);
    }
  }

  ghost predicate LeavesHalfOpen(c: B.Config, s: System, es: seq<Event>, name: string) {
    !CellOf(Run(c, s, es).cells, name).state.HalfOpen?
  }

  /** A half-open breaker can leave that state in some continuation exactly when an attempt at
      its provider is still in flight. Once the probe was cancelled (it reports nothing) and
      nobody else is in flight, the provider is never tried again. */
  lemma HalfOpenEndsIffInFlight(c: B.Config, s: System, name: string)
    requires CellOf(s.cells, name).state.HalfOpen?
    ensures (exists es :: LeavesHalfOpen(c, s, es, name)) <==> InFlight(s, name)
  {
    if InFlight(s, name) {
      var k, side :| 0 <= k < |s.races| && Flying(s.races[k], side, name);
      var es := [Resolve(k, side, Broken, 0)];
      assert es[..0] == [] && Run(c, s, []) == s;
      assert Run(c, s, es) == Step(c, s, es[0]);
      assert LeavesHalfOpen(c, s, es, name);
    } else if es :| LeavesHalfOpen(c, s, es, name) {
      StuckForever(c, s, es, name);
      assert false;
    }
  }

  // A run that ends there.

  const C := B.Config(1, 5)

  function Race0(a: Attempt, results: seq<Reply>): Race { Begun("a", "b", true).(primary := a, results := results) }

  function Opened(): System {
    System(map["a" := B.Cell(B.Open, 1, 0, false)], [Race0(Finished, [Failed])],
           [("a", B.Allow(0)), ("a", B.Failure(0))])
  }

  /** A failed call opens the breaker of `a`. */
  lemma FirstCallOpens()
    ensures Step(C, Step(C, Step(C, INITIAL, Begin("a", "b", true)), Check(0, Primary, 0)),
                 Resolve(0, Primary, Broken, 0))
         == Opened()
  {
    var s := Step(C, INITIAL, Begin("a", "b", true));
    assert s.races == [Race0(Starting, [])];
    var t := Step(C, s, Check(0, Primary, 0));
    assert t == System(map["a" := B.NEW], [Race0(Running, [])], [("a", B.Allow(0))]);
    var u := Step(C, t, Resolve(0, Primary, Broken, 0));
    assert u.cells == Opened().cells;
    assert [] + [Failed] == [Failed];
    assert u.races == Opened().races;
  }

  /** The next call's primary is the probe, and its secondary starts after the timer. */
  function Probing(secondary: Attempt): System {
    System(Opened().cells["a" := B.Cell(B.HalfOpen, 1, 0, true)],
           Opened().races + [Race0(Running, []).(secondary := secondary, secondaryStarted := true, launched := 2)],
           Opened().log + [("a", B.Allow(5))])
  }

  lemma SecondCallProbes()
    ensures Step(C, Step(C, Step(C, Opened(), Begin("a", "b", true)), Check(1, Primary, 5)), Timer(1))
         == Probing(Starting)
  {
    var s := Step(C, Opened(), Begin("a", "b", true));
    assert s.races == Opened().races + [Race0(Starting, [])];
    var t := Step(C, s, Check(1, Primary, 5));
    assert t.races == Opened().races + [Race0(Running, [])];
    assert t == System(Opened().cells["a" := B.Cell(B.HalfOpen, 1, 0, true)], t.races,
                       Opened().log + [("a", B.Allow(5))]);
    assert Step(C, t, Timer(1)).races == Probing(Starting).races;
  }

  /** The secondary answers first, the call returns, and the cancelled probe says nothing. */
  lemma ProbeLoses()
    ensures var s := Step(C, Step(C, Probing(Starting), Check(1, Secondary, 5)),
                          Resolve(1, Secondary, Completed("ok"), 6));
            var t := Step(C, Step(C, s, Receive(1)), Resolve(1, Primary, CancelledMidFlight, 6));
            t.races[1].outcome == Some(Won("ok")) && Stuck(t, "a")
  {
    var r := Step(C, Probing(Starting), Check(1, Secondary, 5));
    assert r.races == Probing(Running).races;
    assert CellOf(r.cells, "a") == B.Cell(B.HalfOpen, 1, 0, true);
    var s := Step(C, r, Resolve(1, Secondary, Completed("ok"), 6));
    assert CellOf(s.cells, "a") == B.Cell(B.HalfOpen, 1, 0, true);
    var won := r.races[1].(secondary := Finished, results := [Text("ok")]);
    assert [] + [Text("ok")] == [Text("ok")] && [Text("ok")][1..] == [] && [] + [Failed] == [Failed];
    assert s.races == Opened().races + [won];
    var q := Step(C, s, Receive(1));
    assert q.races == Opened().races + [won.(results := [], outcome := Some(Won("ok")))];
    var t := Step(C, q, Resolve(1, Primary, CancelledMidFlight, 6));
    assert t.races == Opened().races + [won.(results := [Failed], outcome := Some(Won("ok")), primary := Finished)];
    assert forall k, side :: 0 <= k < |t.races| ==> !Flying(t.races[k], side, "a");
  }

  ghost predicate StuckAfter(es: seq<Event>) { Stuck(Run(C, INITIAL, es), "a") }

  /** The dead end is reachable: there is a run after which provider `a` is never tried again. */
  lemma LostProbeSticks()
    ensures exists es :: StuckAfter(es)
  {
    FirstCallOpens();
    SecondCallProbes();
    ProbeLoses();
    hide Step;
    var es: seq<Event> := [];
    es := Then(es, Begin("a", "b", true));
    es := Then(es, Check(0, Primary, 0));
    es := Then(es, Resolve(0, Primary, Broken, 0));
    es := Then(es, Begin("a", "b", true));
    es := Then(es, Check(1, Primary, 5));
    es := Then(es, Timer(1));
    es := Then(es, Check(1, Secondary, 5));
    es := Then(es, Resolve(1, Secondary, Completed("ok"), 6));
    es := Then(es, Receive(1));
    es := Then(es, Resolve(1, Primary, CancelledMidFlight, 6));
    assert StuckAfter(es);
  }

  lemma Then(es: seq<Event>, e: Event) returns (more: seq<Event>)
    ensures more == es + [e] && Run(C, INITIAL, more) == Step(C, Run(C, INITIAL, es), e)
  {
    more := es + [e];
    assert more[..|more| - 1] == es;
  }
}
