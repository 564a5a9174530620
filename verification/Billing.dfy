/** Billing as one more fold of the event stream. Amounts are whole cents. */
module Billing {
  import opened Common
  import opened Events
  import opened EventFold
  import ES = EventSourcing

  const NOTHING := Usage(0, 0, 0, 0, 0)

  function AddUsage(a: Usage, b: Usage): Usage {
    Usage(a.callMinutes + b.callMinutes, a.sttMs + b.sttMs, a.tokensIn + b.tokensIn,
          a.tokensOut + b.tokensOut, a.ttsChars + b.ttsChars)
  }

  function OfCall(events: seq<Envelope>, c: string): seq<Envelope> {
    if events == [] then []
    else
      var rest, e := OfCall(events[..|events| - 1], c), events[|events| - 1];
      if e.callId == c then rest + [e] else rest
  }

  function CallIds(events: seq<Envelope>): set<string> { set e <- events :: e.callId }

  /** The fold of one call of a mixed stream. */
  function CallFold(events: seq<Envelope>, c: string): Folded { Fold(OfCall(events, c)) }

  /** Usage summed over a set of calls, `None` when one of them does not fold. */
  ghost function TotalOf(calls: set<string>, folds: map<string, Folded>): Option<Usage>
    requires calls <= folds.Keys
  {
    if calls == {} then Some(NOTHING)
    else
      var c :| c in calls;
      Plus(TotalOf(calls - {c}, folds), folds[c])
  }

  function Plus(total: Option<Usage>, f: Folded): Option<Usage> {
    if total.None? || f.Err? then None else Some(AddUsage(total.value, f.snap.usage))
  }

  lemma PlusSwaps(t: Option<Usage>, f: Folded, g: Folded)
    ensures Plus(Plus(t, f), g) == Plus(Plus(t, g), f)
  {}

  /** The total does not depend on the order in which the calls are visited. */
  lemma {:induction false} TotalFrom(calls: set<string>, folds: map<string, Folded>, c: string)
    requires calls <= folds.Keys && c in calls
    ensures TotalOf(calls, folds) == Plus(TotalOf(calls - {c}, folds), folds[c])
  {
    var d :| d in calls && TotalOf(calls, folds) == Plus(TotalOf(calls - {d}, folds), folds[d]);
    if c != d {
      TotalFrom(calls - {d}, folds, c);
      TotalFrom(calls - {c}, folds, d);
      assert calls - {c} - {d} == calls - {d} - {c};
      PlusSwaps(TotalOf(calls - {c} - {d}, folds), folds[c], folds[d]);
    }
  }

  ghost function Folds(events: seq<Envelope>): map<string, Folded> {
    map c | c in CallIds(events) :: CallFold(events, c)
  }

  ghost function StreamUsage(events: seq<Envelope>): Option<Usage> {
    TotalOf(CallIds(events), Folds(events))
  }

  lemma {:induction false} OfCallMembers(events: seq<Envelope>, c: string)
    ensures forall e :: e in OfCall(events, c) <==> e in events && e.callId == c
  {
    if events != [] {
      OfCallMembers(events[..|events| - 1], c);
      assert events == events[..|events| - 1] + [events[|events| - 1]];
    }
  }

  lemma OfCallEmptyIff(events: seq<Envelope>, c: string)
    ensures c in CallIds(events) <==> OfCall(events, c) != []
  {
    OfCallMembers(events, c);
    assert OfCall(events, c) != [] ==> OfCall(events, c)[0] in events;
    if e :| e in events && e.callId == c {
      assert e in OfCall(events, c);
    }
  }

  method GroupByCall(events: seq<Envelope>) returns (byCall: map<string, seq<Envelope>>)
    ensures byCall.Keys == CallIds(events)
    ensures forall c :: c in byCall ==> byCall[c] == OfCall(events, c)
  {
    byCall := map[];
    for i := 0 to |events|
      invariant byCall.Keys == CallIds(events[..i])
      invariant forall c :: c in byCall ==> byCall[c] == OfCall(events[..i], c)
    {
      var e := events[i];
      assert events[..i + 1] == events[..i] + [e];
      OfCallEmptyIff(events[..i], e.callId);
      byCall := byCall[e.callId := (if e.callId in byCall then byCall[e.callId] else []) + [e]];
    }
    assert events[..|events|] == events;
  }

  ghost function GroupFolds(byCall: map<string, seq<Envelope>>): map<string, Folded> {
    map c | c in byCall :: Fold(byCall[c])
  }

  /** Adding the folds of the groups, in whatever order the map gives them. */
  method SumGroups(byCall: map<string, seq<Envelope>>) returns (r: Option<Usage>)
    ensures r == TotalOf(byCall.Keys, GroupFolds(byCall))
  {
    var total, todo := NOTHING, byCall.Keys;
    ghost var done, folds := {}, GroupFolds(byCall);
    assert TotalOf(done, folds) == Some(NOTHING);
    hide Fold, TotalOf, Plus;
    while todo != {}
      invariant todo + done == byCall.Keys && todo !! done
      invariant TotalOf(done, folds) == Some(total)
      decreases |todo|
    {
      var c :| c in todo;
      var snap := FoldEvents(byCall[c]);
      if snap.Err? {
        FailureSpreads(byCall.Keys, folds, c);
        return None;
      }
      TotalWith(done, folds, c);
      total := AddUsage(total, snap.snap.usage);
      todo, done := todo - {c}, done + {c};
    }
    assert done == byCall.Keys;
    return Some(total);
  }

  method UsageFromEvents(events: seq<Envelope>) returns (r: Option<Usage>)
    ensures r == StreamUsage(events)
  {
    hide Fold, OfCall, TotalOf;
    var byCall := GroupByCall(events);
    r := SumGroups(byCall);
    assert GroupFolds(byCall) == Folds(events);
  }

  /** One call that does not fold fails the whole stream. */
  lemma FailureSpreads(calls: set<string>, folds: map<string, Folded>, c: string)
    requires calls <= folds.Keys && c in calls && folds[c].Err?
    ensures TotalOf(calls, folds).None?
  {
    TotalFrom(calls, folds, c);
  }

  lemma TotalWith(done: set<string>, folds: map<string, Folded>, c: string)
    requires c !in done && done + {c} <= folds.Keys
    ensures TotalOf(done + {c}, folds) == Plus(TotalOf(done, folds), folds[c])
    ensures TotalOf(done, folds).Some? && folds[c].Ok?
            ==> TotalOf(done + {c}, folds) == Some(AddUsage(TotalOf(done, folds).value, folds[c].snap.usage))
  {
    TotalFrom(done + {c}, folds, c);
    assert done + {c} - {c} == done;
  }

  // --- duplicates, order, mixing

  predicate SameName(a: Envelope, b: Envelope) {
    a.callId == b.callId && a.seqNo == b.seqNo && a.eventId == b.eventId
  }

  /** Within one call, sequence number and EventID together name one event. */
  ghost predicate Named(events: seq<Envelope>) {
    forall a, b | a in events && b in events && SameName(a, b) :: a == b
  }

  /** Bills do not depend on how the stream was delivered: interleaving, reordering and
      duplication across all calls leave the usage unchanged. */
  lemma UsageDependsOnlyOnSet(s1: seq<Envelope>, s2: seq<Envelope>)
    requires forall e :: e in s1 <==> e in s2
    requires Numbered(s1) && Named(s1)
    ensures StreamUsage(s1) == StreamUsage(s2)
  {
    forall c ensures CallFold(s1, c) == CallFold(s2, c) {
      OfCallMembers(s1, c);
      OfCallMembers(s2, c);
      FoldDependsOnlyOnSet(OfCall(s1, c), OfCall(s2, c));
    }
    assert CallIds(s1) == CallIds(s2);
    assert Folds(s1) == Folds(s2);
  }

  function AddTotals(a: Option<Usage>, b: Option<Usage>): Option<Usage> {
    if a.None? || b.None? then None else Some(AddUsage(a.value, b.value))
  }

  lemma {:induction false} TotalOfUnion(a: set<string>, b: set<string>, folds: map<string, Folded>)
    requires a !! b && a + b <= folds.Keys
    ensures TotalOf(a + b, folds) == AddTotals(TotalOf(a, folds), TotalOf(b, folds))
    decreases |b|
  {
    if b == {} {
      assert a + b == a;
    } else {
      var c :| c in b;
      TotalOfUnion(a, b - {c}, folds);
      TotalFrom(b, folds, c);
      TotalFrom(a + b, folds, c);
      assert a + b - {c} == a + (b - {c});
      PlusOfSum(TotalOf(a, folds), TotalOf(b - {c}, folds), folds[c]);
      hide TotalOf, Plus, AddTotals;
    }
  }

  lemma PlusOfSum(a: Option<Usage>, b: Option<Usage>, f: Folded)
    ensures Plus(AddTotals(a, b), f) == AddTotals(a, Plus(b, f))
  {}

  lemma {:induction false} TotalAgrees(calls: set<string>, f: map<string, Folded>, g: map<string, Folded>)
    requires calls <= f.Keys && calls <= g.Keys && forall c :: c in calls ==> f[c] == g[c]
    ensures TotalOf(calls, f) == TotalOf(calls, g)
    decreases |calls|
  {
    if calls != {} {
      var c :| c in calls;
      TotalAgrees(calls - {c}, f, g);
      TotalFrom(calls, f, c);
      TotalFrom(calls, g, c);
    }
  }

  /** Usage is additive over streams without a common call, however they are interleaved. */
  lemma UsageIsAdditive(s: seq<Envelope>, a: seq<Envelope>, b: seq<Envelope>)
    requires forall e :: e in s <==> e in a || e in b
    requires CallIds(a) !! CallIds(b)
    requires Numbered(s) && Named(s)
    ensures StreamUsage(s) == AddTotals(StreamUsage(a), StreamUsage(b))
  {
    PartKeepsFolds(s, a, b);
    PartKeepsFolds(s, b, a);
    assert CallIds(s) == CallIds(a) + CallIds(b);
    TotalOfUnion(CallIds(a), CallIds(b), Folds(s));
    TotalAgrees(CallIds(a), Folds(s), Folds(a));
    TotalAgrees(CallIds(b), Folds(s), Folds(b));
  }

  lemma PartKeepsFolds(s: seq<Envelope>, a: seq<Envelope>, b: seq<Envelope>)
    requires forall e :: e in s <==> e in a || e in b
    requires CallIds(a) !! CallIds(b)
    requires Numbered(s) && Named(s)
    ensures CallIds(a) <= CallIds(s)
    ensures forall c :: c in CallIds(a) ==> CallFold(s, c) == CallFold(a, c)
  {
    forall c | c in CallIds(a) ensures c in CallIds(s) && CallFold(s, c) == CallFold(a, c) {
      var w :| w in a && w.callId == c;
      assert w in s;
      OfCallMembers(s, c);
      OfCallMembers(a, c);
      forall e ensures e in OfCall(s, c) <==> e in OfCall(a, c) {
        assert e in b ==> e.callId in CallIds(b);
      }
      FoldDependsOnlyOnSet(OfCall(s, c), OfCall(a, c));
    }
  }

  // --- minutes against milliseconds

  /** The duration the fold bills: that of the last call.ended applied. */
  function EndedMs(evs: seq<Envelope>): Option<int> {
    if evs == [] then None
    else
      var e := evs[|evs| - 1];
      if e.body.CallEnded? then Some(e.body.durationMs) else EndedMs(evs[..|evs| - 1])
  }

  lemma {:induction false} MinutesOfHistory(evs: seq<Envelope>)
    requires ApplyAll(evs).Ok?
    ensures ApplyAll(evs).snap.usage.callMinutes
         == (if EndedMs(evs).Some? then CeilMinutes(EndedMs(evs).value) else 0)
  {
    if evs != [] {
      MinutesOfHistory(evs[..|evs| - 1]);
    }
  }

  function BilledMs(events: seq<Envelope>, c: string): Option<int> {
    EndedMs(Kept(SortStable(OfCall(events, c))))
  }

  ghost function SumMs(calls: set<string>, events: seq<Envelope>): int {
    if calls == {} then 0
    else
      var c :| c in calls;
      SumMs(calls - {c}, events) + BilledMs(events, c).UnwrapOr(0)
  }

  /** The calls of the stream with an applied call.ended. */
  ghost function EndedCalls(calls: set<string>, events: seq<Envelope>): set<string> {
    set c | c in calls && BilledMs(events, c).Some?
  }

  /** A call is billed at most 59 999 ms more than it lasted, and only when it ended. */
  lemma RoundingOfCall(events: seq<Envelope>, c: string)
    requires CallFold(events, c).Ok? && BilledMs(events, c).UnwrapOr(0) >= 0
    ensures var gap := 60000 * CallFold(events, c).snap.usage.callMinutes - BilledMs(events, c).UnwrapOr(0);
            0 <= gap <= (if BilledMs(events, c).Some? then 59999 else 0)
  {
    MinutesOfHistory(Kept(SortStable(OfCall(events, c))));
  }

  lemma {:induction false} RoundingOver(calls: set<string>, events: seq<Envelope>)
    requires calls <= CallIds(events) && TotalOf(calls, Folds(events)).Some?
    requires forall c :: c in calls ==> BilledMs(events, c).UnwrapOr(0) >= 0
    ensures var gap := 60000 * TotalOf(calls, Folds(events)).value.callMinutes - SumMs(calls, events);
            0 <= gap <= 59999 * |EndedCalls(calls, events)|
  {
    hide CallFold, BilledMs;
    if calls != {} {
      var c :| c in calls && SumMs(calls, events) == SumMs(calls - {c}, events) + BilledMs(events, c).UnwrapOr(0);
      TotalFrom(calls, Folds(events), c);
      RoundingOver(calls - {c}, events);
      RoundingOfCall(events, c);
      EndedWithout(calls, events, c);
    }
  }

  lemma EndedWithout(calls: set<string>, events: seq<Envelope>, c: string)
    requires c in calls
    ensures |EndedCalls(calls, events)|
         == |EndedCalls(calls - {c}, events)| + if BilledMs(events, c).Some? then 1 else 0
  {
    hide BilledMs;
    var without := EndedCalls(calls - {c}, events);
    assert EndedCalls(calls, events) == if BilledMs(events, c).Some? then without + {c} else without;
  }

  /** Rounding up costs less than a minute a call: billed minutes cover the total duration,
      and exceed it by less than one minute for each ended call. */
  lemma RoundingBound(events: seq<Envelope>)
    requires StreamUsage(events).Some?
    requires forall c :: c in CallIds(events) ==> BilledMs(events, c).UnwrapOr(0) >= 0
    ensures var gap := 60000 * StreamUsage(events).value.callMinutes - SumMs(CallIds(events), events);
            var n := |EndedCalls(CallIds(events), events)|;
            0 <= gap && (n > 0 ==> gap < 60000 * n) && (n == 0 ==> gap == 0)
  {
    RoundingOver(CallIds(events), events);
  }

  // --- from emitter to invoice

  /** All sessions of the calls `ops.Keys` after their runs, every event flushed. */
  ghost predicate AllFlushed(ops: map<string, seq<ES.Op>>, calls: map<string, ES.Call>) {
    && ops.Keys == calls.Keys
    && forall c :: c in ops ==>
         && calls[c].callId == c
         && var s := ES.Run(calls[c], ops[c]); s.flushed == |s.emitted| > 0
  }

  ghost predicate Delivers(events: seq<Envelope>, ops: map<string, seq<ES.Op>>, calls: map<string, ES.Call>)
    requires ops.Keys == calls.Keys
  {
    forall e :: e in events <==> exists c :: c in ops && e in ES.Run(calls[c], ops[c]).stored
  }

  /** Each call's emitted events, applied in order. */
  ghost function Histories(ops: map<string, seq<ES.Op>>, calls: map<string, ES.Call>): map<string, Folded>
    requires ops.Keys == calls.Keys
  {
    map c | c in ops :: ApplyAll(ES.Run(calls[c], ops[c]).emitted)
  }

  /** Each call bills what its own history holds, whatever failed while publishing and however
      the events of all calls were mixed, reordered and duplicated on the way. */
  lemma BillFollowsHistories(events: seq<Envelope>, ops: map<string, seq<ES.Op>>, calls: map<string, ES.Call>)
    requires AllFlushed(ops, calls) && Delivers(events, ops, calls)
    ensures StreamUsage(events) == TotalOf(ops.Keys, Histories(ops, calls))
  {
    hide CallFold, ApplyAll, ES.Run, ES.Ready;
    CallIdsAreOps(events, ops, calls);
    forall c | c in ops ensures Folds(events)[c] == Histories(ops, calls)[c] {
      CallBillsHistory(events, ops, calls, c);
    }
    hide TotalOf, AllFlushed, Delivers, Folds, Histories, CallIds;
    TotalAgrees(ops.Keys, Folds(events), Histories(ops, calls));
  }

  lemma CallIdsAreOps(events: seq<Envelope>, ops: map<string, seq<ES.Op>>, calls: map<string, ES.Call>)
    requires AllFlushed(ops, calls) && Delivers(events, ops, calls)
    ensures CallIds(events) == ops.Keys
  {
    OnlyOwnCalls(events, ops, calls);
    forall c | c in ops ensures c in CallIds(events) { CallBillsHistory(events, ops, calls, c); }
    hide AllFlushed, Delivers;
  }

  lemma OnlyOwnCalls(events: seq<Envelope>, ops: map<string, seq<ES.Op>>, calls: map<string, ES.Call>)
    requires AllFlushed(ops, calls) && Delivers(events, ops, calls)
    ensures forall e :: e in events ==> e.callId in ops
  {
    hide ES.Run;
    forall e | e in events ensures e.callId in ops {
      var c :| c in ops && e in ES.Run(calls[c], ops[c]).stored;
      ES.StoredBelongs(calls[c], ops[c], e);
    }
  }

  lemma CallBillsHistory(events: seq<Envelope>, ops: map<string, seq<ES.Op>>, calls: map<string, ES.Call>, c: string)
    requires AllFlushed(ops, calls) && Delivers(events, ops, calls) && c in ops
    ensures c in CallIds(events) && CallFold(events, c) == ApplyAll(ES.Run(calls[c], ops[c]).emitted)
  {
    hide Fold, ApplyAll, ES.Run;
    var s := ES.Run(calls[c], ops[c]);
    OfCallMembers(events, c);
    forall e ensures e in OfCall(events, c) <==> e in s.stored {
      if e in s.stored {
        ES.StoredBelongs(calls[c], ops[c], e);
      }
      if e in OfCall(events, c) {
        var d :| d in ops && e in ES.Run(calls[d], ops[d]).stored;
        ES.StoredBelongs(calls[d], ops[d], e);
      }
    }
    var k := ES.AnyDeliveryFoldsToPrefix(calls[c], ops[c], OfCall(events, c));
    assert s.emitted[..k] == s.emitted;
    ES.StoredWhenFlushed(calls[c], ops[c], s.emitted[0]);
    assert s.emitted[0] in OfCall(events, c);
  }

  // --- the invoice

  datatype Plan = Starter | Pro | Growth | Other(name: string)

  datatype Pricing = Pricing(monthlyCents: int, includedMinutes: int, overageCentsPerMinute: int)

  const OVERAGE_CENTS_PER_MINUTE := 35

  function PricingFor(plan: Plan): Option<Pricing> {
    match plan
    case Starter => Some(Pricing(14900, 200, OVERAGE_CENTS_PER_MINUTE))
    case Pro => Some(Pricing(24900, 500, OVERAGE_CENTS_PER_MINUTE))
    case Growth => Some(Pricing(39900, 1000, OVERAGE_CENTS_PER_MINUTE))
    case Other(_) => None
  }

  datatype Invoice = Invoice(plan: Plan, usage: Usage, baseCents: int, includedMinutes: int,
                             overageMinutes: int, overageCents: int, totalCents: int, trial: bool)

  function Compute(plan: Plan, usage: Usage, inTrial: bool): Option<Invoice> {
    match PricingFor(plan)
    case None => None
    case Some(p) =>
      var over := if usage.callMinutes - p.includedMinutes < 0 then 0 else usage.callMinutes - p.includedMinutes;
      var overCents := over * p.overageCentsPerMinute;
      Some(Invoice(plan, usage, p.monthlyCents, p.includedMinutes, over, overCents,
                   if inTrial then 0 else p.monthlyCents + overCents, inTrial))
  }

  /** More minutes never cost less, and each extra minute costs either nothing or 35 cents;
      outside a trial the base is always charged. */
  lemma InvoiceIsMonotone(plan: Plan, a: Usage, b: Usage)
    requires !plan.Other? && a.callMinutes <= b.callMinutes
    ensures var x, y := Compute(plan, a, false).value.totalCents, Compute(plan, b, false).value.totalCents;
            Compute(plan, a, false).value.baseCents <= x <= y <= x + 35 * (b.callMinutes - a.callMinutes)
  {}

  /** Adding calls to a stream never lowers its invoice. */
  lemma MoreCallsNeverCostLess(plan: Plan, s: seq<Envelope>, a: seq<Envelope>, b: seq<Envelope>)
    requires !plan.Other?
    requires forall e :: e in s <==> e in a || e in b
    requires CallIds(a) !! CallIds(b)
    requires Numbered(s) && Named(s) && StreamUsage(s).Some?
    ensures StreamUsage(a).Some?
    ensures Compute(plan, StreamUsage(a).value, false).value.totalCents
         <= Compute(plan, StreamUsage(s).value, false).value.totalCents
  {
    UsageIsAdditive(s, a, b);
    hide Numbered, Named, Fold, OfCall;
    MinutesNonNegative(b);
  }

  lemma MinutesNonNegative(events: seq<Envelope>)
    requires StreamUsage(events).Some?
    ensures StreamUsage(events).value.callMinutes >= 0
  {
    hide Fold, OfCall;
    forall c | c in CallIds(events) && CallFold(events, c).Ok?
      ensures CallFold(events, c).snap.usage.callMinutes >= 0
    {
      CallMinutesNonNegative(events, c);
    }
    SumNonNegative(CallIds(events), Folds(events));
  }

  lemma CallMinutesNonNegative(events: seq<Envelope>, c: string)
    requires CallFold(events, c).Ok?
    ensures CallFold(events, c).snap.usage.callMinutes >= 0
  {
    MinutesOfHistory(Kept(SortStable(OfCall(events, c))));
  }

  lemma {:induction false} SumNonNegative(calls: set<string>, folds: map<string, Folded>)
    requires calls <= folds.Keys && TotalOf(calls, folds).Some?
    requires forall c :: c in calls && folds[c].Ok? ==> folds[c].snap.usage.callMinutes >= 0
    ensures TotalOf(calls, folds).value.callMinutes >= 0
    decreases |calls|
  {
    if calls != {} {
      var c :| c in calls;
      TotalFrom(calls, folds, c);
      SumNonNegative(calls - {c}, folds);
    }
  }
}
