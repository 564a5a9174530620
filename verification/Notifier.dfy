/** Notifications of finished calls and weekly reports, each behind a deduplication key.
    Handlers run one after another; what the outside world does to each call is a parameter. */
module Notifier {
  import opened Common
  import opened Events
  import opened EventFold
  import Sm = Summary

  // --- what is sent, and under which key

  /** EventIDs hold no ':' and so the suffixed and prefixed key strings never meet. */
  datatype Key =
    | Owner(eventId: nat)
    | Client(eventId: nat)
    | Agg(eventId: nat)
    | Weekly(tenant: string, year: int, week: int)

  datatype Stats = Stats(callsAnswered: nat, jobsBooked: nat, messages: nat)

  const ZERO := Stats(0, 0, 0)

  datatype Text =
    | OwnerText(sum: Sm.Summary, french: bool)
    | ClientText(booked: bool, at: int, french: bool)
    | ReportText(stats: Stats, french: bool)

  /** How the store answers a mark: it may keep the key and still report an error. No mark is made
      after a send that reports an error. */
  datatype MarkOutcome = Stored | StoredButFailed | Lost | NotMade

  /** A carrier takes a message, refuses it, or takes it and reports an error. */
  datatype Sending = Sent | Refused | SentButFailed

  /** A message the carrier accepted, or a call counted for the weekly report, and how the mark
      after it went. */
  datatype Effect =
    | Message(key: Key, to: string, text: Text, mark: MarkOutcome)
    | Counted(key: Key, tenant: string, outcome: Sm.Outcome, mark: MarkOutcome)

  datatype TenantInfo = TenantInfo(ownerPhone: string, ownerEmail: string, locale: string)

  const FRENCH := "fr-CA"

  // --- what can go wrong

  /** How the deduplication store, the renderer and the carrier answer one guarded send. */
  datatype Trouble = Trouble(seenFails: bool, renderFails: bool, send: Sending, mark: MarkOutcome)

  const CALM := Trouble(false, false, Sent, Stored)

  datatype World = World(info: Option<TenantInfo>, owner: Trouble, client: Trouble, agg: Trouble)

  // --- the state

  /** `effects` records what happened outside: accepted messages and counted calls. */
  datatype State = State(pending: map<string, seq<Envelope>>, weekly: map<string, Stats>, dedup: set<Key>,
                         effects: seq<Effect>)

  const INITIAL := State(map[], map[], {}, [])

  datatype Step = Step(state: State, ok: bool)

  function Mark(s: State, key: Key, m: MarkOutcome): Step {
    match m
    case Stored => Step(s.(dedup := s.dedup + {key}), true)
    case StoredButFailed => Step(s.(dedup := s.dedup + {key}), false)
    case _ => Step(s, false)
  }

  /** The mark after a send. */
  function MarkOf(t: Trouble): MarkOutcome { if t.send.SentButFailed? then NotMade else t.mark }

  /** Seen, render, send, mark: the common shape of every message. */
  function SendOnce(s: State, key: Key, to: string, text: Text, t: Trouble): Step {
    if t.seenFails then Step(s, false)
    else if key in s.dedup then Step(s, true)
    else if t.renderFails || t.send.Refused? then Step(s, false)
    else Mark(s.(effects := s.effects + [Message(key, to, text, MarkOf(t))]), key, MarkOf(t))
  }

  function OwnerStep(s: State, eventId: nat, sum: Sm.Summary, info: TenantInfo, t: Trouble): Step {
    if info.ownerPhone == "" then Step(s, true)
    else SendOnce(s, Owner(eventId), info.ownerPhone, OwnerText(sum, info.locale == FRENCH), t)
  }

  /** The caller hears back when there is a number and something to confirm. */
  predicate ClientDue(sum: Sm.Summary) { sum.callerPhone != "" && (sum.outcome.Booked? || sum.outcome.TookMessage?) }

  function ClientMessage(sum: Sm.Summary): Text {
    ClientText(sum.outcome.Booked?, if sum.outcome.Booked? then sum.appointmentAt else 0, sum.locale == FRENCH)
  }

  function ClientStep(s: State, eventId: nat, sum: Sm.Summary, t: Trouble): Step {
    if !ClientDue(sum) then Step(s, true)
    else SendOnce(s, Client(eventId), sum.callerPhone, ClientMessage(sum), t)
  }

  function CurrentStats(weekly: map<string, Stats>, tenant: string): Stats {
    if tenant in weekly then weekly[tenant] else ZERO
  }

  function CountCall(st: Stats, outcome: Sm.Outcome): Stats {
    Stats(st.callsAnswered + 1, st.jobsBooked + (if outcome.Booked? then 1 else 0),
          st.messages + if outcome.TookMessage? then 1 else 0)
  }

  function AggStep(s: State, eventId: nat, sum: Sm.Summary, t: Trouble): Step {
    if t.seenFails then Step(s, false)
    else if Agg(eventId) in s.dedup then Step(s, true)
    else Mark(s.(weekly := s.weekly[sum.tenantId := CountCall(CurrentStats(s.weekly, sum.tenantId), sum.outcome)],
                 effects := s.effects + [Counted(Agg(eventId), sum.tenantId, sum.outcome, t.mark)]),
              Agg(eventId), t.mark)
  }

  function NotifyStep(s: State, eventId: nat, sum: Sm.Summary, w: World): Step {
    if w.info.None? then Step(s, false)
    else
      var a := OwnerStep(s, eventId, sum, w.info.value, w.owner);
      if !a.ok then a
      else
        var b := ClientStep(a.state, eventId, sum, w.client);
        if !b.ok then b else AggStep(b.state, eventId, sum, w.agg)
  }

  function Buffered(s: State, ev: Envelope): State {
    s.(pending := s.pending[ev.callId := (if ev.callId in s.pending then s.pending[ev.callId] else []) + [ev]])
  }

  /** A call.ended whose payload does not decode still buffers, and fails in the fold. */
  datatype Incoming = Incoming(ev: Envelope, ended: bool)

  function HandleStep(s: State, inc: Incoming, parse: string -> Option<int>, w: World): Step {
    var b := Buffered(s, inc.ev);
    if !inc.ended then Step(b, true)
    else
      var built := Sm.BuildSummary(b.pending[inc.ev.callId], parse);
      if !built.Ok? then Step(b, false)
      else
        var r := NotifyStep(b, inc.ev.eventId, built.sum, w);
        if !r.ok then r else Step(r.state.(pending := r.state.pending - {inc.ev.callId}), true)
  }

  /** One tenant of the weekly sweep, with the ISO week the tenant's clock shows. */
  datatype Visit = Visit(tenant: string, info: Option<TenantInfo>, year: int, week: int, trouble: Trouble)

  /** The counters are reset once the report was sent and marked. */
  function Reset(s: State, tenant: string): State { s.(weekly := s.weekly - {tenant}) }

  function ReportStep(s: State, v: Visit): Step {
    if v.info.None? then Step(s, false)
    else if v.info.value.ownerEmail == "" then Step(s, true)
    else
      var key, stats := Weekly(v.tenant, v.year, v.week), CurrentStats(s.weekly, v.tenant);
      var r := SendOnce(s, key, v.info.value.ownerEmail, ReportText(stats, v.info.value.locale == FRENCH), v.trouble);
      if r.ok && key !in s.dedup
      then Step(Reset(r.state, v.tenant), true)
      else r
  }

  /** One bad tenant does not stop the sweep. */
  function Sweep(s: State, visits: seq<Visit>): Step {
    if visits == [] then Step(s, true)
    else
      var before := Sweep(s, visits[..|visits| - 1]);
      var r := ReportStep(before.state, visits[|visits| - 1]);
      Step(r.state, before.ok && r.ok)
  }

  datatype Op = Handle(inc: Incoming, w: World) | Report(visits: seq<Visit>)

  function OpStep(s: State, op: Op, parse: string -> Option<int>): Step {
    match op
    case Handle(inc, w) => HandleStep(s, inc, parse, w)
    case Report(visits) => Sweep(s, visits)
  }

  function Run(ops: seq<Op>, parse: string -> Option<int>): State {
    if ops == [] then INITIAL else OpStep(Run(ops[..|ops| - 1], parse), ops[|ops| - 1], parse).state
  }

  // --- at most once

  function Times(effects: seq<Effect>, key: Key): nat {
    if effects == [] then 0
    else Times(effects[..|effects| - 1], key) + if effects[|effects| - 1].key == key then 1 else 0
  }

  predicate Unmarked(e: Effect) { e.mark.Lost? || e.mark.NotMade? }

  /** How many of them left no mark in the store: it was lost, or never made. */
  function Losses(effects: seq<Effect>, key: Key): nat {
    if effects == [] then 0
    else
      var e := effects[|effects| - 1];
      Losses(effects[..|effects| - 1], key) + if e.key == key && Unmarked(e) then 1 else 0
  }

  /** Every effect under a key is explained by a stored mark or by one that is missing. */
  ghost predicate Explained(s: State, key: Key) {
    Times(s.effects, key) == Losses(s.effects, key) + if key in s.dedup then 1 else 0
  }

  // --- the weekly counters

  function AddStats(a: Stats, b: Stats): Stats {
    Stats(a.callsAnswered + b.callsAnswered, a.jobsBooked + b.jobsBooked, a.messages + b.messages)
  }

  function CountedFor(effects: seq<Effect>, tenant: string): Stats {
    if effects == [] then ZERO
    else
      var rest, e := CountedFor(effects[..|effects| - 1], tenant), effects[|effects| - 1];
      if e.Counted? && e.tenant == tenant then CountCall(rest, e.outcome) else rest
  }

  predicate IsReport(e: Effect, tenant: string) {
    e.Message? && e.key.Weekly? && e.key.tenant == tenant && e.text.ReportText?
  }

  /** The sum of what the accepted reports to a tenant say. */
  function SentFor(effects: seq<Effect>, tenant: string): Stats {
    if effects == [] then ZERO
    else
      var rest, e := SentFor(effects[..|effects| - 1], tenant), effects[|effects| - 1];
      if IsReport(e, tenant) then AddStats(rest, e.text.stats) else rest
  }

  /** The part of it sent in reports whose send or mark returned an error. */
  function UnmarkedFor(effects: seq<Effect>, tenant: string): Stats {
    if effects == [] then ZERO
    else
      var rest, e := UnmarkedFor(effects[..|effects| - 1], tenant), effects[|effects| - 1];
      if IsReport(e, tenant) && !e.mark.Stored? then AddStats(rest, e.text.stats) else rest
  }

  /** What the accepted reports say and the current counters are the calls counted, and once more
      every report whose send or mark returned an error. */
  ghost predicate Conserved(s: State, tenant: string) {
    AddStats(SentFor(s.effects, tenant), CurrentStats(s.weekly, tenant))
    == AddStats(CountedFor(s.effects, tenant), UnmarkedFor(s.effects, tenant))
  }

  ghost predicate Sound(s: State) {
    && (forall key :: Explained(s, key))
    && (forall tenant :: Conserved(s, tenant))
  }

  // One more effect, in each of the sums.

  lemma OneMore(effects: seq<Effect>, e: Effect, key: Key)
    ensures Times(effects + [e], key) == Times(effects, key) + (if e.key == key then 1 else 0)
    ensures Losses(effects + [e], key) == Losses(effects, key) + (if e.key == key && Unmarked(e) then 1 else 0)
  {
    assert (effects + [e])[..|effects|] == effects;
  }

  lemma OneMoreFor(effects: seq<Effect>, e: Effect, tenant: string)
    ensures CountedFor(effects + [e], tenant)
         == (if e.Counted? && e.tenant == tenant then CountCall(CountedFor(effects, tenant), e.outcome)
             else CountedFor(effects, tenant))
    ensures SentFor(effects + [e], tenant)
         == (if IsReport(e, tenant) then AddStats(SentFor(effects, tenant), e.text.stats) else SentFor(effects, tenant))
    ensures UnmarkedFor(effects + [e], tenant)
         == (if IsReport(e, tenant) && !e.mark.Stored? then AddStats(UnmarkedFor(effects, tenant), e.text.stats)
             else UnmarkedFor(effects, tenant))
  {
    assert (effects + [e])[..|effects|] == effects;
  }

  lemma MarkExplains(s: State, e: Effect, key: Key)
    requires Explained(s, key) && e.key !in s.dedup
    ensures Explained(Mark(s.(effects := s.effects + [e]), e.key, e.mark).state, key)
  {
    OneMore(s.effects, e, key);
    hide Times, Losses;
  }

  /** A message other than a report leaves the sums alone. */
  lemma MessageSound(s: State, m: Effect)
    requires Sound(s) && m.Message? && !m.key.Weekly? && m.key !in s.dedup
    ensures Sound(Mark(s.(effects := s.effects + [m]), m.key, m.mark).state)
  {
    hide Times, Losses, SentFor, UnmarkedFor, CountedFor;
    var r := Mark(s.(effects := s.effects + [m]), m.key, m.mark).state;
    forall key ensures Explained(r, key) { assert Explained(s, key); MarkExplains(s, m, key); }
    forall tenant ensures Conserved(r, tenant) { assert Conserved(s, tenant); OneMoreFor(s.effects, m, tenant); }
  }

  lemma CountSound(s: State, e: Effect)
    requires Sound(s) && e.Counted? && e.key !in s.dedup
    ensures var weekly := s.weekly[e.tenant := CountCall(CurrentStats(s.weekly, e.tenant), e.outcome)];
            Sound(Mark(s.(weekly := weekly, effects := s.effects + [e]), e.key, e.mark).state)
  {
    hide Times, Losses, SentFor, UnmarkedFor, CountedFor, Explained;
    var weekly := s.weekly[e.tenant := CountCall(CurrentStats(s.weekly, e.tenant), e.outcome)];
    var r := Mark(s.(weekly := weekly, effects := s.effects + [e]), e.key, e.mark).state;
    forall key ensures Explained(r, key) { assert Explained(s, key); CountExplains(s, weekly, e, key); }
    forall tenant ensures Conserved(r, tenant) { assert Conserved(s, tenant); CountConserves(s, e, tenant); }
  }

  lemma CountExplains(s: State, weekly: map<string, Stats>, e: Effect, key: Key)
    requires Explained(s, key) && e.key !in s.dedup
    ensures Explained(Mark(s.(weekly := weekly, effects := s.effects + [e]), e.key, e.mark).state, key)
  {
    hide Times, Losses;
    OneMore(s.effects, e, key);
  }

  lemma CountConserves(s: State, e: Effect, tenant: string)
    requires Conserved(s, tenant) && e.Counted?
    ensures var weekly := s.weekly[e.tenant := CountCall(CurrentStats(s.weekly, e.tenant), e.outcome)];
            Conserved(Mark(s.(weekly := weekly, effects := s.effects + [e]), e.key, e.mark).state, tenant)
  {
    hide SentFor, UnmarkedFor, CountedFor;
    OneMoreFor(s.effects, e, tenant);
  }

  lemma SendSound(s: State, key: Key, to: string, text: Text, t: Trouble)
    requires Sound(s) && !key.Weekly?
    ensures Sound(SendOnce(s, key, to, text, t).state)
  {
    hide Sound, Mark;
    if !t.seenFails && key !in s.dedup && !t.renderFails && !t.send.Refused? {
      MessageSound(s, Message(key, to, text, MarkOf(t)));
    }
  }

  lemma AggSound(s: State, eventId: nat, sum: Sm.Summary, t: Trouble)
    requires Sound(s)
    ensures Sound(AggStep(s, eventId, sum, t).state)
  {
    hide Sound, Mark;
    if !t.seenFails && Agg(eventId) !in s.dedup {
      CountSound(s, Counted(Agg(eventId), sum.tenantId, sum.outcome, t.mark));
    }
  }

  lemma NotifySound(s: State, eventId: nat, sum: Sm.Summary, w: World)
    requires Sound(s)
    ensures Sound(NotifyStep(s, eventId, sum, w).state)
  {
    hide Sound, SendOnce, AggStep;
    if w.info.Some? {
      var info := w.info.value;
      SendSound(s, Owner(eventId), info.ownerPhone, OwnerText(sum, info.locale == FRENCH), w.owner);
      var a := OwnerStep(s, eventId, sum, info, w.owner);
      SendSound(a.state, Client(eventId), sum.callerPhone, ClientMessage(sum), w.client);
      AggSound(ClientStep(a.state, eventId, sum, w.client).state, eventId, sum, w.agg);
    }
  }

  lemma BufferSound(s: State, pending: map<string, seq<Envelope>>)
    requires Sound(s)
    ensures Sound(s.(pending := pending))
  {
    forall key ensures Explained(s.(pending := pending), key) { assert Explained(s, key); }
    forall tenant ensures Conserved(s.(pending := pending), tenant) { assert Conserved(s, tenant); }
  }

  lemma HandleSound(s: State, inc: Incoming, parse: string -> Option<int>, w: World)
    requires Sound(s)
    ensures Sound(HandleStep(s, inc, parse, w).state)
  {
    hide Sound, NotifyStep, Sm.BuildSummary;
    var b := Buffered(s, inc.ev);
    BufferSound(s, b.pending);
    if inc.ended {
      var built := Sm.BuildSummary(b.pending[inc.ev.callId], parse);
      if built.Ok? {
        var r := NotifyStep(b, inc.ev.eventId, built.sum, w);
        NotifySound(b, inc.ev.eventId, built.sum, w);
        BufferSound(r.state, r.state.pending - {inc.ev.callId});
      }
    }
  }

  /** A report that is marked moves the counters from current to sent; one whose mark fails
      leaves them current and will send them again. */
  lemma ReportConserves(s: State, e: Effect, tenant: string)
    requires Conserved(s, tenant) && e.key.Weekly? && IsReport(e, e.key.tenant)
    requires e.text.stats == CurrentStats(s.weekly, e.key.tenant)
    ensures var r := Mark(s.(effects := s.effects + [e]), e.key, e.mark).state;
            Conserved(if e.mark.Stored? then Reset(r, e.key.tenant) else r, tenant)
  {
    hide SentFor, UnmarkedFor, CountedFor;
    OneMoreFor(s.effects, e, tenant);
    var r := Mark(s.(effects := s.effects + [e]), e.key, e.mark).state;
    var q := if e.mark.Stored? then Reset(r, e.key.tenant) else r;
    assert CurrentStats(q.weekly, tenant)
        == if e.mark.Stored? && tenant == e.key.tenant then ZERO else CurrentStats(s.weekly, tenant);
  }

  lemma ReportSound(s: State, v: Visit)
    requires Sound(s)
    ensures Sound(ReportStep(s, v).state)
  {
    hide Conserved, Explained;
    if v.info.Some? && v.info.value.ownerEmail != "" {
      var key, stats := Weekly(v.tenant, v.year, v.week), CurrentStats(s.weekly, v.tenant);
      var text := ReportText(stats, v.info.value.locale == FRENCH);
      var e := Message(key, v.info.value.ownerEmail, text, MarkOf(v.trouble));
      var r := ReportStep(s, v).state;
      if key !in s.dedup {
        forall k ensures Explained(r, k) { assert Explained(s, k); MarkExplains(s, e, k); ResetExplains(s, e, k); }
        forall t ensures Conserved(r, t) { assert Conserved(s, t); ReportConserves(s, e, t); }
      }
    }
  }

  lemma ResetExplains(s: State, e: Effect, key: Key)
    requires e.key.Weekly? && Explained(Mark(s.(effects := s.effects + [e]), e.key, e.mark).state, key)
    ensures Explained(Reset(Mark(s.(effects := s.effects + [e]), e.key, e.mark).state, e.key.tenant), key)
  {
    hide Times, Losses;
  }

  lemma {:induction false} SweepSound(s: State, visits: seq<Visit>)
    requires Sound(s)
    ensures Sound(Sweep(s, visits).state)
  {
    hide Sound, ReportStep;
    if visits != [] {
      SweepSound(s, visits[..|visits| - 1]);
      ReportSound(Sweep(s, visits[..|visits| - 1]).state, visits[|visits| - 1]);
    }
  }

  lemma InitialSound()
    ensures Sound(INITIAL)
  {
    hide Explained, Conserved;
    forall key ensures Explained(INITIAL, key) { NothingExplained(key); }
    forall tenant ensures Conserved(INITIAL, tenant) { NothingConserved(tenant); }
  }

  lemma NothingExplained(key: Key)
    ensures Explained(INITIAL, key)
  {
    assert Times([], key) == 0 && Losses([], key) == 0;
  }

  lemma NothingConserved(tenant: string)
    ensures Conserved(INITIAL, tenant)
  {
    assert CountedFor([], tenant) == ZERO && SentFor([], tenant) == ZERO && UnmarkedFor([], tenant) == ZERO;
    hide CountedFor, SentFor, UnmarkedFor;
    assert CurrentStats(INITIAL.weekly, tenant) == ZERO;
  }

  lemma {:induction false} RunSound(ops: seq<Op>, parse: string -> Option<int>)
    ensures Sound(Run(ops, parse))
  {
    hide Sound, HandleStep, Sweep;
    if ops == [] {
      InitialSound();
    } else {
      RunSound(ops[..|ops| - 1], parse);
      var s, op := Run(ops[..|ops| - 1], parse), ops[|ops| - 1];
      match op
      case Handle(inc, w) => HandleSound(s, inc, parse, w);
      case Report(visits) => SweepSound(s, visits);
    }
  }

  /** Redeliveries, replays and failures of every kind: under one key (event and recipient, or
      tenant and ISO week) there is at most one accepted message or count, and one more for each
      that left no mark, because the send reported an error or the store lost it. The bound is
      exact. */
  lemma AcceptedIffExplained(ops: seq<Op>, parse: string -> Option<int>, key: Key)
    ensures var s := Run(ops, parse);
            && Times(s.effects, key) == Losses(s.effects, key) + (if key in s.dedup then 1 else 0)
            && (Losses(s.effects, key) == 0 ==> Times(s.effects, key) <= 1)
            && (Times(s.effects, key) > 1 ==> Losses(s.effects, key) >= 1)
  {
    RunSound(ops, parse);
    assert Explained(Run(ops, parse), key);
  }

  /** Weekly law, for every tenant and whatever failed: what the accepted reports say and the
      current counters are the calls counted, and once more what was said in each report whose
      send or mark returned an error. */
  lemma SentReportsCountUnmarkedTwice(ops: seq<Op>, parse: string -> Option<int>, tenant: string)
    ensures var s := Run(ops, parse);
            AddStats(SentFor(s.effects, tenant), CurrentStats(s.weekly, tenant))
            == AddStats(CountedFor(s.effects, tenant), UnmarkedFor(s.effects, tenant))
  {
    RunSound(ops, parse);
    assert Conserved(Run(ops, parse), tenant);
  }

  /** A report that had something to say, and whose send or mark returned an error. */
  predicate Repeatable(e: Effect, tenant: string) { IsReport(e, tenant) && !e.mark.Stored? && e.text.stats != ZERO }

  lemma {:induction false} UnmarkedZeroIff(effects: seq<Effect>, tenant: string)
    ensures UnmarkedFor(effects, tenant) == ZERO <==> forall e :: e in effects ==> !Repeatable(e, tenant)
  {
    if effects != [] {
      var u, x := effects[..|effects| - 1], effects[|effects| - 1];
      assert effects == u + [x];
      UnmarkedZeroIff(u, tenant);
      UnmarkedStep(u, x, tenant);
      NoneOneMore(u, x, tenant);
      hide UnmarkedFor, Repeatable;
    }
  }

  lemma UnmarkedStep(effects: seq<Effect>, e: Effect, tenant: string)
    ensures UnmarkedFor(effects + [e], tenant) == ZERO
       <==> UnmarkedFor(effects, tenant) == ZERO && !Repeatable(e, tenant)
  {
    OneMoreFor(effects, e, tenant);
    hide UnmarkedFor, CountedFor, SentFor;
    if IsReport(e, tenant) { ZeroSum(UnmarkedFor(effects, tenant), e.text.stats); }
  }

  lemma NoneOneMore(effects: seq<Effect>, x: Effect, tenant: string)
    ensures (forall e :: e in effects + [x] ==> !Repeatable(e, tenant))
       <==> !Repeatable(x, tenant) && forall e :: e in effects ==> !Repeatable(e, tenant)
  {
    hide Repeatable;
    if forall e :: e in effects + [x] ==> !Repeatable(e, tenant) {
      assert x in effects + [x];
      forall e | e in effects ensures !Repeatable(e, tenant) { assert e in effects + [x]; }
    }
  }

  lemma ZeroSum(a: Stats, b: Stats)
    ensures AddStats(a, b) == ZERO <==> a == ZERO && b == ZERO
    ensures AddStats(a, b) == a <==> b == ZERO
  {}

  /** So the reports and the current counter are the calls counted exactly when no accepted
      report with something to say had its send or its mark fail. */
  lemma SentReportsConserveIff(ops: seq<Op>, parse: string -> Option<int>, tenant: string)
    ensures var s := Run(ops, parse);
            AddStats(SentFor(s.effects, tenant), CurrentStats(s.weekly, tenant)) == CountedFor(s.effects, tenant)
            <==> forall e :: e in s.effects ==> !Repeatable(e, tenant)
  {
    SentReportsCountUnmarkedTwice(ops, parse, tenant);
    UnmarkedZeroIff(Run(ops, parse).effects, tenant);
    var s := Run(ops, parse);
    ZeroSum(CountedFor(s.effects, tenant), UnmarkedFor(s.effects, tenant));
    hide Run, UnmarkedFor, CountedFor, SentFor, AddStats, Repeatable;
  }

  /** The events whose calls were counted. */
  function CountedEvents(effects: seq<Effect>): set<nat> {
    set e <- effects | e.Counted? && e.key.Agg? :: e.key.eventId
  }

  function AllCounted(effects: seq<Effect>): nat {
    if effects == [] then 0
    else AllCounted(effects[..|effects| - 1]) + if effects[|effects| - 1].Counted? then 1 else 0
  }

  ghost predicate CountsAreAgg(effects: seq<Effect>) { forall e :: e in effects && e.Counted? ==> e.key.Agg? }

  lemma {:induction false} TimesPositive(effects: seq<Effect>, key: Key)
    ensures Times(effects, key) > 0 <==> exists e :: e in effects && e.key == key
  {
    if effects != [] {
      var u, x := effects[..|effects| - 1], effects[|effects| - 1];
      assert effects == u + [x];
      TimesPositive(u, key);
      if x.key == key { assert x in effects; }
      if e :| e in u && e.key == key { assert e in effects; }
    }
  }

  lemma {:induction false} DistinctCounts(effects: seq<Effect>)
    requires CountsAreAgg(effects) && forall id: nat :: Times(effects, Agg(id)) <= 1
    ensures AllCounted(effects) == |CountedEvents(effects)|
  {
    if effects == [] {
      assert CountedEvents(effects) == {};
    } else {
      var u, x := effects[..|effects| - 1], effects[|effects| - 1];
      assert effects == u + [x];
      forall id: nat ensures Times(u, Agg(id)) <= 1 { assert Times(effects, Agg(id)) <= 1; }
      DistinctCounts(u);
      if x.Counted? {
        assert x in effects;
        TimesPositive(u, x.key);
        assert Times(effects, Agg(x.key.eventId)) <= 1;
        assert CountedEvents(effects) == CountedEvents(u) + {x.key.eventId};
      } else {
        assert CountedEvents(effects) == CountedEvents(u);
      }
    }
  }

  lemma {:induction false} RunCountsAgg(ops: seq<Op>, parse: string -> Option<int>)
    ensures CountsAreAgg(Run(ops, parse).effects)
  {
    if ops != [] {
      RunCountsAgg(ops[..|ops| - 1], parse);
      var s, op := Run(ops[..|ops| - 1], parse), ops[|ops| - 1];
      if op.Report? { SweepCountsAgg(s, op.visits); } else { HandleCountsAgg(s, op.inc, parse, op.w); }
    }
  }

  lemma {:induction false} SweepCountsAgg(s: State, visits: seq<Visit>)
    requires CountsAreAgg(s.effects)
    ensures CountsAreAgg(Sweep(s, visits).state.effects)
  {
    if visits != [] { SweepCountsAgg(s, visits[..|visits| - 1]); }
  }

  lemma HandleCountsAgg(s: State, inc: Incoming, parse: string -> Option<int>, w: World)
    requires CountsAreAgg(s.effects)
    ensures CountsAreAgg(HandleStep(s, inc, parse, w).state.effects)
  {
    hide Sm.BuildSummary, NotifyStep, CountsAreAgg;
    var b := Buffered(s, inc.ev);
    if inc.ended {
      var built := Sm.BuildSummary(b.pending[inc.ev.callId], parse);
      if built.Ok? { NotifyCountsAgg(b, inc.ev.eventId, built.sum, w); }
    }
  }

  lemma NotifyCountsAgg(s: State, eventId: nat, sum: Sm.Summary, w: World)
    requires CountsAreAgg(s.effects)
    ensures CountsAreAgg(NotifyStep(s, eventId, sum, w).state.effects)
  {
    if w.info.Some? {
      var a := OwnerStep(s, eventId, sum, w.info.value, w.owner).state;
      var b := ClientStep(a, eventId, sum, w.client).state;
      assert CountsAreAgg(a.effects) && CountsAreAgg(b.effects);
      hide OwnerStep, ClientStep;
      assert CountsAreAgg(AggStep(b, eventId, sum, w.agg).state.effects);
      hide AggStep, CountsAreAgg;
    }
  }

  /** While no count mark was lost, the calls counted are the distinct call.ended events counted. */
  lemma EachEventCountsOnce(ops: seq<Op>, parse: string -> Option<int>)
    requires forall id: nat :: Losses(Run(ops, parse).effects, Agg(id)) == 0
    ensures AllCounted(Run(ops, parse).effects) == |CountedEvents(Run(ops, parse).effects)|
  {
    RunCountsAgg(ops, parse);
    forall id: nat ensures Times(Run(ops, parse).effects, Agg(id)) <= 1 {
      AcceptedIffExplained(ops, parse, Agg(id));
    }
    DistinctCounts(Run(ops, parse).effects);
  }

  // --- each call reported once

  /** The events counted for a tenant. */
  function CountedEventsFor(effects: seq<Effect>, tenant: string): set<nat> {
    set e <- effects | e.Counted? && e.tenant == tenant && e.key.Agg? :: e.key.eventId
  }

  predicate Counts(e: Effect, tenant: string, id: nat) { e.Counted? && e.tenant == tenant && e.key == Agg(id) }

  /** How often an event was counted for a tenant. */
  function CountsOf(effects: seq<Effect>, tenant: string, id: nat): nat {
    if effects == [] then 0
    else CountsOf(effects[..|effects| - 1], tenant, id) + if Counts(effects[|effects| - 1], tenant, id) then 1 else 0
  }

  ghost predicate CountedOnce(effects: seq<Effect>, tenant: string) {
    forall id: nat :: CountsOf(effects, tenant, id) <= 1
  }

  lemma OneMoreCount(effects: seq<Effect>, x: Effect, tenant: string, id: nat)
    ensures CountsOf(effects + [x], tenant, id)
         == CountsOf(effects, tenant, id) + if Counts(x, tenant, id) then 1 else 0
  {
    assert (effects + [x])[..|effects|] == effects;
  }

  lemma {:induction false} CountsOfPositive(effects: seq<Effect>, tenant: string, id: nat)
    ensures CountsOf(effects, tenant, id) > 0 <==> id in CountedEventsFor(effects, tenant)
  {
    if effects != [] {
      var u, x := effects[..|effects| - 1], effects[|effects| - 1];
      assert effects == u + [x];
      CountsOfPositive(u, tenant, id);
      EventsOneMore(u, x, tenant);
    }
  }

  lemma EventsOneMore(u: seq<Effect>, x: Effect, tenant: string)
    ensures CountedEventsFor(u + [x], tenant)
         == CountedEventsFor(u, tenant) + if x.Counted? && x.tenant == tenant && x.key.Agg? then {x.key.eventId} else {}
  {
    var es := u + [x];
    assert x in es && forall e :: e in es <==> e in u || e == x;
  }

  lemma OnceOneMore(u: seq<Effect>, x: Effect, tenant: string)
    requires x.Counted? ==> x.key.Agg?
    ensures CountedOnce(u + [x], tenant)
       <==> CountedOnce(u, tenant) && (x.Counted? && x.tenant == tenant ==> CountsOf(u, tenant, x.key.eventId) == 0)
  {
    hide CountsOf;
    forall id: nat
      ensures CountsOf(u + [x], tenant, id) == CountsOf(u, tenant, id) + if Counts(x, tenant, id) then 1 else 0
    {
      OneMoreCount(u, x, tenant, id);
    }
    if CountedOnce(u + [x], tenant) {
      forall id: nat ensures CountsOf(u, tenant, id) <= 1 { assert CountsOf(u + [x], tenant, id) <= 1; }
      if x.Counted? && x.tenant == tenant { assert CountsOf(u + [x], tenant, x.key.eventId) <= 1; }
    }
  }

  /** A tenant's calls are counted at least once for each event, and exactly once when none twice. */
  lemma {:induction false} CountsAtLeastEvents(effects: seq<Effect>, tenant: string)
    requires CountsAreAgg(effects)
    ensures CountedFor(effects, tenant).callsAnswered >= |CountedEventsFor(effects, tenant)|
    ensures CountedFor(effects, tenant).callsAnswered == |CountedEventsFor(effects, tenant)|
       <==> CountedOnce(effects, tenant)
  {
    if effects == [] {
      assert CountedEventsFor(effects, tenant) == {};
    } else {
      var u, x := effects[..|effects| - 1], effects[|effects| - 1];
      assert effects == u + [x] && x in effects;
      assert CountsAreAgg(u) by { forall e | e in u ensures e in effects {} }
      CountsAtLeastEvents(u, tenant);
      OneMoreFor(u, x, tenant);
      EventsOneMore(u, x, tenant);
      OnceOneMore(u, x, tenant);
      if x.Counted? && x.tenant == tenant { CountsOfPositive(u, tenant, x.key.eventId); }
      hide CountedFor, SentFor, UnmarkedFor, CountsOf, CountedOnce, CountedEventsFor, CountsAreAgg;
    }
  }

  /** A report of some call, whose send or mark returned an error. */
  predicate Overstates(e: Effect, tenant: string) {
    IsReport(e, tenant) && !e.mark.Stored? && e.text.stats.callsAnswered > 0
  }

  ghost predicate NoneOverstates(effects: seq<Effect>, tenant: string) {
    forall e :: e in effects ==> !Overstates(e, tenant)
  }

  lemma {:induction false} UnmarkedCallsIff(effects: seq<Effect>, tenant: string)
    ensures UnmarkedFor(effects, tenant).callsAnswered == 0 <==> NoneOverstates(effects, tenant)
  {
    if effects != [] {
      var u, x := effects[..|effects| - 1], effects[|effects| - 1];
      assert effects == u + [x];
      UnmarkedCallsIff(u, tenant);
      OneMoreFor(u, x, tenant);
      NoneOverstatesOneMore(u, x, tenant);
      hide UnmarkedFor, CountedFor, SentFor, NoneOverstates;
    }
  }

  lemma NoneOverstatesOneMore(u: seq<Effect>, x: Effect, tenant: string)
    ensures NoneOverstates(u + [x], tenant) <==> NoneOverstates(u, tenant) && !Overstates(x, tenant)
  {
    hide Overstates;
    if NoneOverstates(u + [x], tenant) {
      assert x in u + [x];
      forall e | e in u ensures !Overstates(e, tenant) { assert e in u + [x]; }
    }
  }

  /** Over every run, per tenant: what the accepted reports say and the current counter are at least
      the distinct call.ended events counted, and exactly those when no event was counted twice and
      no report of some call had its send or its mark fail. */
  lemma ReportsTellEachCallOnceIff(ops: seq<Op>, parse: string -> Option<int>, tenant: string)
    ensures var s := Run(ops, parse);
            var told := SentFor(s.effects, tenant).callsAnswered + CurrentStats(s.weekly, tenant).callsAnswered;
            var calls := |CountedEventsFor(s.effects, tenant)|;
            && told >= calls
            && (told == calls <==> CountedOnce(s.effects, tenant) && NoneOverstates(s.effects, tenant))
  {
    hide Run, CountedOnce, NoneOverstates, SentFor, CountedFor, UnmarkedFor, CountedEventsFor, CountsAreAgg;
    var s := Run(ops, parse);
    SentReportsCountUnmarkedTwice(ops, parse, tenant);
    RunCountsAgg(ops, parse);
    CountsAtLeastEvents(s.effects, tenant);
    UnmarkedCallsIff(s.effects, tenant);
  }

  lemma {:induction false} CountsWithin(effects: seq<Effect>, tenant: string, id: nat)
    ensures CountsOf(effects, tenant, id) <= Times(effects, Agg(id))
  {
    if effects != [] { CountsWithin(effects[..|effects| - 1], tenant, id); }
  }

  /** No event is counted twice while its mark is not lost. */
  lemma CountedOnceUnlessLost(ops: seq<Op>, parse: string -> Option<int>, tenant: string, id: nat)
    ensures var effects := Run(ops, parse).effects;
            CountsOf(effects, tenant, id) > 1 ==> Losses(effects, Agg(id)) > 0
  {
    AcceptedIffExplained(ops, parse, Agg(id));
    CountsWithin(Run(ops, parse).effects, tenant, id);
    hide Run, CountsOf, Times, Losses;
  }

  // --- what a nil return means

  /** All that the end of a call owes, given its digest and the tenant's settings. */
  ghost predicate Settled(s: State, eventId: nat, sum: Sm.Summary, info: TenantInfo) {
    && (info.ownerPhone != "" ==> Owner(eventId) in s.dedup)
    && (ClientDue(sum) ==> Client(eventId) in s.dedup)
    && Agg(eventId) in s.dedup
  }

  /** A nil return on a call.ended means every send then due is settled, accepted at least once,
      and the buffer is released; an error keeps the buffer for the redelivery. */
  lemma NilMeansSettled(ops: seq<Op>, inc: Incoming, parse: string -> Option<int>, w: World)
    requires inc.ended
    ensures var s := Run(ops, parse);
            var r, b := HandleStep(s, inc, parse, w), Buffered(s, inc.ev);
            var built := Sm.BuildSummary(b.pending[inc.ev.callId], parse);
            if r.ok then
              && built.Ok? && w.info.Some? && Settled(r.state, inc.ev.eventId, built.sum, w.info.value)
              && (w.info.value.ownerPhone != "" ==> Times(r.state.effects, Owner(inc.ev.eventId)) >= 1)
              && (ClientDue(built.sum) ==> Times(r.state.effects, Client(inc.ev.eventId)) >= 1)
              && Times(r.state.effects, Agg(inc.ev.eventId)) >= 1
              && inc.ev.callId !in r.state.pending
            else r.state.pending == b.pending
  {
    var s := Run(ops, parse);
    HandleSettles(s, inc, parse, w);
    RunSound(ops, parse);
    HandleSound(s, inc, parse, w);
    var r := HandleStep(s, inc, parse, w);
    assert Explained(r.state, Owner(inc.ev.eventId)) && Explained(r.state, Client(inc.ev.eventId))
        && Explained(r.state, Agg(inc.ev.eventId));
    hide HandleStep, Sm.BuildSummary;
  }

  lemma HandleSettles(s: State, inc: Incoming, parse: string -> Option<int>, w: World)
    requires inc.ended
    ensures var r, b := HandleStep(s, inc, parse, w), Buffered(s, inc.ev);
            var built := Sm.BuildSummary(b.pending[inc.ev.callId], parse);
            if r.ok then
              && built.Ok? && w.info.Some? && Settled(r.state, inc.ev.eventId, built.sum, w.info.value)
              && inc.ev.callId !in r.state.pending
            else r.state.pending == b.pending
  {
    hide Sm.BuildSummary;
  }

  /** Once the outside world is calm, a redelivery succeeds whenever the events fold. */
  lemma CalmRedeliverySucceeds(s: State, inc: Incoming, parse: string -> Option<int>, info: TenantInfo)
    requires inc.ended && Sm.BuildSummary(Buffered(s, inc.ev).pending[inc.ev.callId], parse).Ok?
    ensures HandleStep(s, inc, parse, World(Some(info), CALM, CALM, CALM)).ok
  {
    hide Sm.BuildSummary;
  }

  /** What the handler knows of a call when an event comes in. */
  function Known(s: State, inc: Incoming, parse: string -> Option<int>): Sm.Built {
    Sm.BuildSummary(Buffered(s, inc.ev).pending[inc.ev.callId], parse)
  }

  lemma SettledIsSilent(s: State, inc: Incoming, parse: string -> Option<int>, w: World)
    requires inc.ended
    requires w.info.Some? && Known(s, inc, parse).Ok? ==>
               Settled(s, inc.ev.eventId, Known(s, inc, parse).sum, w.info.value)
    ensures var r := HandleStep(s, inc, parse, w).state; r == s.(pending := r.pending)
  {
    hide Sm.BuildSummary;
  }

  lemma UnsettledSends(s: State, eventId: nat, sum: Sm.Summary, info: TenantInfo)
    requires !Settled(s, eventId, sum, info)
    ensures |NotifyStep(s, eventId, sum, World(Some(info), CALM, CALM, CALM)).state.effects| > |s.effects|
  {}

  /** A replay of call.ended has no effect outside, whatever goes wrong, exactly when the events
      then buffered do not fold or all that their digest owes is settled. What the digest owed at
      the first delivery does not matter. */
  lemma ReplayIsSilentIff(s: State, inc: Incoming, parse: string -> Option<int>, info: TenantInfo)
    requires inc.ended
    ensures (forall w: World :: w.info == Some(info) ==> HandleStep(s, inc, parse, w).state.effects == s.effects)
       <==> !Known(s, inc, parse).Ok? || Settled(s, inc.ev.eventId, Known(s, inc, parse).sum, info)
  {
    hide Sm.BuildSummary, HandleStep, Settled;
    var built := Known(s, inc, parse);
    if !built.Ok? || Settled(s, inc.ev.eventId, built.sum, info) {
      forall w: World | w.info == Some(info) ensures HandleStep(s, inc, parse, w).state.effects == s.effects {
        SettledIsSilent(s, inc, parse, w);
      }
    } else {
      UnsettledHandleSends(s, inc, parse, info);
    }
  }

  lemma UnsettledHandleSends(s: State, inc: Incoming, parse: string -> Option<int>, info: TenantInfo)
    requires inc.ended && Known(s, inc, parse).Ok? && !Settled(s, inc.ev.eventId, Known(s, inc, parse).sum, info)
    ensures |HandleStep(s, inc, parse, World(Some(info), CALM, CALM, CALM)).state.effects| > |s.effects|
  {
    hide Sm.BuildSummary, NotifyStep, Settled;
    SettledBuffered(s, inc, Known(s, inc, parse).sum, info);
    UnsettledSends(Buffered(s, inc.ev), inc.ev.eventId, Known(s, inc, parse).sum, info);
  }

  lemma SettledBuffered(s: State, inc: Incoming, sum: Sm.Summary, info: TenantInfo)
    ensures Settled(Buffered(s, inc.ev), inc.ev.eventId, sum, info) <==> Settled(s, inc.ev.eventId, sum, info)
  {}

  // --- what was known when the call ended

  /** The notifier tells what had arrived when call.ended did. Beside one that had more of the call's
      history, it has the same effects exactly when what had arrived gives the same digest. */
  lemma TellsHistoryIff(s: State, h: State, inc: Incoming, parse: string -> Option<int>, info: TenantInfo)
    requires inc.ended && h == s.(pending := h.pending)
    requires Owner(inc.ev.eventId) !in s.dedup && info.ownerPhone != ""
    requires Known(s, inc, parse).Ok? && Known(h, inc, parse).Ok?
    ensures var w := World(Some(info), CALM, CALM, CALM);
            HandleStep(s, inc, parse, w).state.effects == HandleStep(h, inc, parse, w).state.effects
            <==> Known(s, inc, parse) == Known(h, inc, parse)
  {
    hide Sm.BuildSummary, NotifyStep, Known;
    var w := World(Some(info), CALM, CALM, CALM);
    HandleEffects(s, inc, parse, w);
    HandleEffects(h, inc, parse, w);
    OwnerToldFirst(Buffered(s, inc.ev), inc.ev.eventId, Known(s, inc, parse).sum, info);
    OwnerToldFirst(Buffered(h, inc.ev), inc.ev.eventId, Known(h, inc, parse).sum, info);
    NotifyIgnoresBuffer(Buffered(s, inc.ev), Buffered(h, inc.ev), inc.ev.eventId, Known(s, inc, parse).sum, w);
    hide HandleStep;
  }

  lemma HandleEffects(s: State, inc: Incoming, parse: string -> Option<int>, w: World)
    requires inc.ended && Known(s, inc, parse).Ok?
    ensures HandleStep(s, inc, parse, w).state.effects
         == NotifyStep(Buffered(s, inc.ev), inc.ev.eventId, Known(s, inc, parse).sum, w).state.effects
  {
    hide Sm.BuildSummary, NotifyStep;
  }

  lemma OwnerToldFirst(s: State, eventId: nat, sum: Sm.Summary, info: TenantInfo)
    requires Owner(eventId) !in s.dedup && info.ownerPhone != ""
    ensures var r := NotifyStep(s, eventId, sum, World(Some(info), CALM, CALM, CALM)).state.effects;
            |r| > |s.effects|
            && r[|s.effects|] == Message(Owner(eventId), info.ownerPhone, OwnerText(sum, info.locale == FRENCH), Stored)
  {}

  lemma NotifyIgnoresBuffer(s: State, h: State, eventId: nat, sum: Sm.Summary, w: World)
    requires h == s.(pending := h.pending)
    ensures NotifyStep(s, eventId, sum, w).state.effects == NotifyStep(h, eventId, sum, w).state.effects
  {
    hide SendOnce, AggStep;
    if w.info.Some? {
      var info, p := w.info.value, h.pending;
      SendIgnoresBuffer(s, p, Owner(eventId), info.ownerPhone, OwnerText(sum, info.locale == FRENCH), w.owner);
      var a := OwnerStep(s, eventId, sum, info, w.owner).state;
      assert OwnerStep(h, eventId, sum, info, w.owner).state == a.(pending := p);
      SendIgnoresBuffer(a, p, Client(eventId), sum.callerPhone, ClientMessage(sum), w.client);
      var b := ClientStep(a, eventId, sum, w.client).state;
      hide OwnerStep;
      assert ClientStep(a.(pending := p), eventId, sum, w.client).state == b.(pending := p);
      hide ClientStep, ClientMessage;
      AggIgnoresBuffer(b, p, eventId, sum, w.agg);
    }
  }

  lemma SendIgnoresBuffer(s: State, p: map<string, seq<Envelope>>, key: Key, to: string, text: Text, t: Trouble)
    ensures var r := SendOnce(s, key, to, text, t);
            SendOnce(s.(pending := p), key, to, text, t) == Step(r.state.(pending := p), r.ok)
  {}

  lemma AggIgnoresBuffer(s: State, p: map<string, seq<Envelope>>, eventId: nat, sum: Sm.Summary, t: Trouble)
    ensures AggStep(s.(pending := p), eventId, sum, t).state == AggStep(s, eventId, sum, t).state.(pending := p)
  {}

  /** So it tells the whole history when the whole history had arrived, in any order and with any
      repetition, and holds a single call.started. */
  lemma WholeHistoryIsTold(s: State, h: State, inc: Incoming, parse: string -> Option<int>, w: World)
    requires inc.ended && h == s.(pending := h.pending)
    requires var b, k := Buffered(s, inc.ev).pending[inc.ev.callId], Buffered(h, inc.ev).pending[inc.ev.callId];
             && (forall e :: e in b <==> e in k)
             && Numbered(b) && Identified(b)
             && forall x, y | x in b && y in b && x.body.CallStarted? && y.body.CallStarted? :: x == y
    ensures HandleStep(s, inc, parse, w).state.effects == HandleStep(h, inc, parse, w).state.effects
  {
    var b, k := Buffered(s, inc.ev).pending[inc.ev.callId], Buffered(h, inc.ev).pending[inc.ev.callId];
    Sm.SummaryDependsOnlyOnSet(b, k, parse);
    assert Known(s, inc, parse) == Known(h, inc, parse);
    hide Known, Sm.BuildSummary, NotifyStep, HandleStep, Numbered, Identified;
    if Known(s, inc, parse).Ok? {
      HandleEffects(s, inc, parse, w);
      HandleEffects(h, inc, parse, w);
      NotifyIgnoresBuffer(Buffered(s, inc.ev), Buffered(h, inc.ev), inc.ev.eventId, Known(s, inc, parse).sum, w);
    } else {
      UnfoldedIsSilent(s, inc, parse, w);
      UnfoldedIsSilent(h, inc, parse, w);
    }
  }

  lemma UnfoldedIsSilent(s: State, inc: Incoming, parse: string -> Option<int>, w: World)
    requires inc.ended && !Known(s, inc, parse).Ok?
    ensures HandleStep(s, inc, parse, w).state.effects == s.effects
  {
    hide Sm.BuildSummary, NotifyStep;
  }

  // --- the object

  class CallNotifier {
    var pending: map<string, seq<Envelope>>
    var weekly: map<string, Stats>
    var dedup: set<Key>
    ghost var effects: seq<Effect>

    ghost function View(): State
      reads this
    {
      State(pending, weekly, dedup, effects)
    }

    constructor ()
      ensures View() == INITIAL
    {
      pending, weekly, dedup, effects := map[], map[], {}, [];
    }

    method MarkKey(key: Key, m: MarkOutcome) returns (ok: bool)
      modifies this`dedup
      ensures Step(View(), ok) == Mark(old(View()), key, m)
    {
      if m.Lost? || m.NotMade? {
        return false;
      }
      dedup := dedup + {key};
      return m.Stored?;
    }

    method SendOwnerSms(eventId: nat, sum: Sm.Summary, info: TenantInfo, t: Trouble) returns (ok: bool)
      modifies this`dedup, this`effects
      ensures Step(View(), ok) == OwnerStep(old(View()), eventId, sum, info, t)
    {
      if info.ownerPhone == "" {
        return true;
      }
      var key := Owner(eventId);
      if t.seenFails {
        return false;
      }
      if key in dedup {
        return true;
      }
      if t.renderFails || t.send.Refused? {
        return false;
      }
      effects := effects + [Message(key, info.ownerPhone, OwnerText(sum, info.locale == FRENCH), MarkOf(t))];
      if t.send.SentButFailed? {
        return false;
      }
      ok := MarkKey(key, t.mark);
    }

    method SendClientSms(eventId: nat, sum: Sm.Summary, t: Trouble) returns (ok: bool)
      modifies this`dedup, this`effects
      ensures Step(View(), ok) == ClientStep(old(View()), eventId, sum, t)
    {
      if sum.callerPhone == "" {
        return true;
      }
      if !sum.outcome.Booked? && !sum.outcome.TookMessage? {
        return true;
      }
      var key := Client(eventId);
      if t.seenFails {
        return false;
      }
      if key in dedup {
        return true;
      }
      if t.renderFails || t.send.Refused? {
        return false;
      }
      effects := effects + [Message(key, sum.callerPhone, ClientMessage(sum), MarkOf(t))];
      if t.send.SentButFailed? {
        return false;
      }
      ok := MarkKey(key, t.mark);
    }

    method RecordWeekly(eventId: nat, sum: Sm.Summary, t: Trouble) returns (ok: bool)
      modifies this`dedup, this`effects, this`weekly
      ensures Step(View(), ok) == AggStep(old(View()), eventId, sum, t)
    {
      var key := Agg(eventId);
      if t.seenFails {
        return false;
      }
      if key in dedup {
        return true;
      }
      var st := if sum.tenantId in weekly then weekly[sum.tenantId] else ZERO;
      st := st.(callsAnswered := st.callsAnswered + 1);
      if sum.outcome.Booked? {
        st := st.(jobsBooked := st.jobsBooked + 1);
      } else if sum.outcome.TookMessage? {
        st := st.(messages := st.messages + 1);
      }
      weekly := weekly[sum.tenantId := st];
      effects := effects + [Counted(key, sum.tenantId, sum.outcome, t.mark)];
      ok := MarkKey(key, t.mark);
    }

    method HandleEvent(inc: Incoming, parse: string -> Option<int>, w: World) returns (ok: bool)
      modifies this
      ensures Step(View(), ok) == HandleStep(old(View()), inc, parse, w)
    {
      hide Sm.BuildSummary, OwnerStep, ClientStep, AggStep;
      var c := inc.ev.callId;
      pending := pending[c := (if c in pending then pending[c] else []) + [inc.ev]];
      if !inc.ended {
        return true;
      }
      var built := Sm.BuildSummary(pending[c], parse);
      if !built.Ok? || w.info.None? {
        return false;
      }
      ok := SendOwnerSms(inc.ev.eventId, built.sum, w.info.value, w.owner);
      if !ok {
        return false;
      }
      ok := SendClientSms(inc.ev.eventId, built.sum, w.client);
      if !ok {
        return false;
      }
      ok := RecordWeekly(inc.ev.eventId, built.sum, w.agg);
      if !ok {
        return false;
      }
      pending := pending - {c};
      return true;
    }

    method SendWeeklyReport(v: Visit) returns (ok: bool)
      modifies this`dedup, this`effects, this`weekly
      ensures Step(View(), ok) == ReportStep(old(View()), v)
    {
      if v.info.None? {
        return false;
      }
      if v.info.value.ownerEmail == "" {
        return true;
      }
      var key := Weekly(v.tenant, v.year, v.week);
      if v.trouble.seenFails {
        return false;
      }
      if key in dedup {
        return true;
      }
      var stats := if v.tenant in weekly then weekly[v.tenant] else ZERO;
      if v.trouble.renderFails || v.trouble.send.Refused? {
        return false;
      }
      effects := effects + [Message(key, v.info.value.ownerEmail, ReportText(stats, v.info.value.locale == FRENCH),
                                    MarkOf(v.trouble))];
      if v.trouble.send.SentButFailed? {
        return false;
      }
      ok := MarkKey(key, v.trouble.mark);
      if !ok {
        return false;
      }
      weekly := weekly - {v.tenant};
      return true;
    }

    method SendWeeklyReports(visits: seq<Visit>) returns (ok: bool)
      modifies this`dedup, this`effects, this`weekly
      ensures Step(View(), ok) == Sweep(old(View()), visits)
    {
      hide ReportStep;
      ok := true;
      for i := 0 to |visits|
        invariant Step(View(), ok) == Sweep(old(View()), visits[..i])
      {
        assert visits[..i + 1][..i] == visits[..i];
        var sent := SendWeeklyReport(visits[i]);
        ok := ok && sent;
      }
      assert visits[..|visits|] == visits;
    }
  }
}
