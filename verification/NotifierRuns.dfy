/** Notifications in which what one would expect fails: short runs. */
module NotifierRuns {
  import opened Common
  import opened Events
  import opened EventFold
  import opened Notifier
  import Sm = Summary

  /** A call that is only known to have ended. */
  function Ended(): Envelope { Envelope(1, "c", 3, 0, "t", "f", 1, "", CallEnded("completed", 0), []) }

  function Digest(): Sm.Summary { Sm.Summary("c", "t", "", 0, "", "", "", "", "", Sm.Nothing, 0, "") }

  lemma EndedDigest(parse: string -> Option<int>)
    ensures Sm.BuildSummary([Ended()], parse) == Sm.Built.Ok(Digest())
    ensures Sm.BuildSummary([Ended()] + [Ended()], parse) == Sm.Built.Ok(Digest())
  {
    var e := Ended();
    assert [e][..0] == [];
    assert SortStable([e]) == [e] by { assert SortStable([e]) == Insert(SortStable([]), e); }
    assert Kept([e]) == [e] by { assert Kept([e]) == Kept([]) + [e]; }
    assert ApplyAll([e]) == Apply(EMPTY, e);
    assert [e][1..] == [] && Sm.FirstCaller([e]) == "";
    Sm.SummaryDependsOnlyOnSet([e], [e] + [e], parse);
  }

  const OWNER := Some(TenantInfo("phone", "", ""))

  const MAILED := Some(TenantInfo("", "mail", ""))

  /** The store loses the mark of the owner's message, and the bus redelivers. */
  const LOST_MARK := [
    Handle(Incoming(Ended(), true), World(OWNER, CALM.(mark := Lost), CALM, CALM)),
    Handle(Incoming(Ended(), true), World(OWNER, CALM, CALM, CALM))]

  function OwnerMessage(mark: MarkOutcome): Effect { Message(Owner(1), "phone", OwnerText(Digest(), false), mark) }

  lemma FirstDelivery(parse: string -> Option<int>)
    ensures HandleStep(INITIAL, LOST_MARK[0].inc, parse, LOST_MARK[0].w).state
         == State(map["c" := [Ended()]], map[], {}, [OwnerMessage(Lost)])
  {
    hide Sm.BuildSummary;
    EndedDigest(parse);
    assert Buffered(INITIAL, Ended()).pending == map["c" := [Ended()]] by { assert [] + [Ended()] == [Ended()]; }
    assert [] + [OwnerMessage(Lost)] == [OwnerMessage(Lost)];
  }

  lemma Redelivery(parse: string -> Option<int>)
    ensures var s := State(map["c" := [Ended()]], map[], {}, [OwnerMessage(Lost)]);
            Times(HandleStep(s, LOST_MARK[1].inc, parse, LOST_MARK[1].w).state.effects, Owner(1)) == 2
  {
    hide Sm.BuildSummary;
    EndedDigest(parse);
    var s := State(map["c" := [Ended()]], map[], {}, [OwnerMessage(Lost)]);
    var b := Buffered(s, Ended());
    assert b.pending["c"] == [Ended()] + [Ended()];
    var counted := Counted(Agg(1), "t", Sm.Nothing, Stored);
    var r := HandleStep(s, LOST_MARK[1].inc, parse, LOST_MARK[1].w).state;
    assert r.effects == [OwnerMessage(Lost)] + [OwnerMessage(Stored)] + [counted];
    OneMore([], OwnerMessage(Lost), Owner(1));
    assert [] + [OwnerMessage(Lost)] == [OwnerMessage(Lost)];
    OneMore([OwnerMessage(Lost)], OwnerMessage(Stored), Owner(1));
    OneMore([OwnerMessage(Lost)] + [OwnerMessage(Stored)], counted, Owner(1));
  }

  lemma RunTwo(a: Op, b: Op, parse: string -> Option<int>)
    ensures Run([a, b], parse) == OpStep(OpStep(INITIAL, a, parse).state, b, parse).state
  {
    hide OpStep;
    assert [a, b][..1] == [a] && [a][..0] == [];
    assert Run([a], parse) == OpStep(Run([], parse), a, parse).state;
  }

  /** So "at most once" fails after a lost mark: the owner gets the message twice. */
  lemma LostMarkSendsTwice(parse: string -> Option<int>)
    ensures Times(Run(LOST_MARK, parse).effects, Owner(1)) == 2
  {
    hide HandleStep, Times;
    FirstDelivery(parse);
    Redelivery(parse);
    RunTwo(LOST_MARK[0], LOST_MARK[1], parse);
    assert LOST_MARK == [LOST_MARK[0], LOST_MARK[1]];
  }

  function InWeek(week: int, mark: MarkOutcome): Visit { Visit("t", MAILED, 2026, week, CALM.(mark := mark)) }

  /** One call is counted; the report of week 1 goes out, but its mark returns an error. */
  const UNMARKED_REPORT := [
    Handle(Incoming(Ended(), true), World(MAILED, CALM, CALM, CALM)),
    Report([InWeek(1, StoredButFailed), InWeek(2, Stored)])]

  function ReportOf(week: int, mark: MarkOutcome): Effect {
    Message(Weekly("t", 2026, week), "mail", ReportText(Stats(1, 0, 0), false), mark)
  }

  const COUNTED_ONCE := Counted(Agg(1), "t", Sm.Nothing, Stored)

  lemma CallCounted(parse: string -> Option<int>)
    ensures HandleStep(INITIAL, UNMARKED_REPORT[0].inc, parse, UNMARKED_REPORT[0].w).state
         == State(map[], map["t" := Stats(1, 0, 0)], {Agg(1)}, [COUNTED_ONCE])
  {
    hide Sm.BuildSummary;
    EndedDigest(parse);
    assert Buffered(INITIAL, Ended()).pending == map["c" := [Ended()]] by { assert [] + [Ended()] == [Ended()]; }
    assert [] + [COUNTED_ONCE] == [COUNTED_ONCE];
    assert map["c" := [Ended()]] - {"c"} == map[];
  }

  lemma SweptTwice()
    ensures var s := State(map[], map["t" := Stats(1, 0, 0)], {Agg(1)}, [COUNTED_ONCE]);
            var r := Sweep(s, [InWeek(1, StoredButFailed), InWeek(2, Stored)]).state;
            r.effects == [COUNTED_ONCE] + [ReportOf(1, StoredButFailed)] + [ReportOf(2, Stored)] && r.weekly == map[]
  {
    var s := State(map[], map["t" := Stats(1, 0, 0)], {Agg(1)}, [COUNTED_ONCE]);
    var v, w := InWeek(1, StoredButFailed), InWeek(2, Stored);
    assert [v, w][..1] == [v] && [v][..0] == [];
    var r1 := ReportStep(s, v).state;
    assert r1 == State(map[], map["t" := Stats(1, 0, 0)], {Agg(1), Weekly("t", 2026, 1)},
                       [COUNTED_ONCE] + [ReportOf(1, StoredButFailed)]);
    assert Sweep(s, [v]).state == r1;
    assert Sweep(s, [v, w]).state == ReportStep(r1, w).state;
    assert map["t" := Stats(1, 0, 0)] - {"t"} == map[];
  }

  lemma TwiceInReports()
    ensures var es := [COUNTED_ONCE] + [ReportOf(1, StoredButFailed)] + [ReportOf(2, Stored)];
            SentFor(es, "t") == Stats(2, 0, 0) && CountedFor(es, "t") == Stats(1, 0, 0)
  {
    hide *;
    OnceCounted();
    var one := [COUNTED_ONCE];
    ReportAdds(one, 1, StoredButFailed);
    ReportAdds(one + [ReportOf(1, StoredButFailed)], 2, Stored);
    Adds();
  }

  lemma Adds()
    ensures AddStats(AddStats(ZERO, Stats(1, 0, 0)), Stats(1, 0, 0)) == Stats(2, 0, 0)
  {}

  lemma ReportAdds(effects: seq<Effect>, week: int, mark: MarkOutcome)
    ensures var more := effects + [ReportOf(week, mark)];
            && SentFor(more, "t") == AddStats(SentFor(effects, "t"), Stats(1, 0, 0))
            && CountedFor(more, "t") == CountedFor(effects, "t")
  {
    hide SentFor, CountedFor, UnmarkedFor;
    OneMoreFor(effects, ReportOf(week, mark), "t");
  }

  lemma OnceCounted()
    ensures SentFor([COUNTED_ONCE], "t") == ZERO && CountedFor([COUNTED_ONCE], "t") == Stats(1, 0, 0)
  {
    assert [COUNTED_ONCE][..0] == [];
    assert SentFor([], "t") == ZERO == CountedFor([], "t");
  }

  /** So the reports do not add up after a failed mark: one call, reported in two weeks. */
  lemma UnmarkedReportCountsTwice(parse: string -> Option<int>)
    ensures var s := Run(UNMARKED_REPORT, parse);
            && CountedFor(s.effects, "t") == Stats(1, 0, 0)
            && AddStats(SentFor(s.effects, "t"), CurrentStats(s.weekly, "t")) == Stats(2, 0, 0)
  {
    hide HandleStep, Sweep, SentFor, CountedFor;
    CallCounted(parse);
    SweptTwice();
    TwiceInReports();
    RunTwo(UNMARKED_REPORT[0], UNMARKED_REPORT[1], parse);
    assert UNMARKED_REPORT == [UNMARKED_REPORT[0], UNMARKED_REPORT[1]];
  }

  // --- events that arrive after call.ended

  function Began(): Envelope { Envelope(2, "c", 1, 0, "t", "f", 1, "", CallStarted(Some("555")), []) }

  function Noted(): Envelope { Envelope(3, "c", 2, 0, "t", "f", 1, "", VarAssigned("message", JString("call me")), []) }

  /** The whole call, in order. */
  function Whole(): seq<Envelope> { [Began(), Noted(), Ended()] }

  function WholeDigest(): Sm.Summary {
    Digest().(callerPhone := "555", callbackPhone := "555", outcome := Sm.TookMessage, message := "call me")
  }

  lemma WholeFolds()
    ensures var r := Fold(Whole());
            && r.Ok? && r.snap.id == Identity("c", "t", "f", 1) && r.snap.life.endedAt == 0
            && r.snap.life.endReason == "completed" && r.snap.course.locale == ""
            && r.snap.course.vars == map["message" := JString("call me")]
  {
    WholeApplies();
    InOrderAlready(Whole());
    hide Fold, ApplyAll, Whole;
  }

  lemma WholeApplies()
    ensures Rising(Whole()) && Numbered(Whole())
    ensures var r := ApplyAll(Whole());
            && r.Ok? && r.snap.id == Identity("c", "t", "f", 1) && r.snap.life.endedAt == 0
            && r.snap.life.endReason == "completed" && r.snap.course.locale == ""
            && r.snap.course.vars == map["message" := JString("call me")]
  {
    var k := Whole();
    assert k[..2] == [Began(), Noted()] && k[..2][..1] == [Began()] && [Began()][..0] == [];
    assert ApplyAll([Began()]) == Apply(EMPTY, Began());
    assert ApplyAll(k[..2]) == Apply(ApplyAll([Began()]).snap, Noted());
    assert ApplyAll(k) == Apply(ApplyAll(k[..2]).snap, Ended());
  }

  lemma InOrderAlready(k: seq<Envelope>)
    requires Rising(k) && Numbered(k)
    ensures Fold(k) == ApplyAll(k)
  {
    hide ApplyAll, Fold;
    forall e | e in k ensures First(k, e) {
      forall f | f in k && f.seqNo == e.seqNo ensures f == e { OneOfNumber(k, e, f); }
    }
    forall e, f | e in k && f in k && e.seqNo == f.seqNo ensures e == f { OneOfNumber(k, e, f); }
    FoldIsInOrderApplication(k, k);
  }

  lemma OneOfNumber(k: seq<Envelope>, e: Envelope, f: Envelope)
    requires Rising(k) && e in k && f in k && e.seqNo == f.seqNo
    ensures e == f
  {
    var i :| 0 <= i < |k| && k[i] == e;
    var j :| 0 <= j < |k| && k[j] == f;
  }

  lemma WholeIsDigested(parse: string -> Option<int>)
    ensures Sm.BuildSummary(Whole(), parse) == Sm.Built.Ok(WholeDigest())
  {
    WholeFolds();
    assert Sm.FirstCaller(Whole()) == "555";
    hide Fold;
  }

  /** call.ended arrives first and is settled; what came before it on the call arrives after it;
      then call.ended is redelivered. */
  const LATE := [
    Handle(Incoming(Ended(), true), World(OWNER, CALM, CALM, CALM)),
    Handle(Incoming(Began(), false), World(OWNER, CALM, CALM, CALM)),
    Handle(Incoming(Noted(), false), World(OWNER, CALM, CALM, CALM)),
    Handle(Incoming(Ended(), true), World(OWNER, CALM, CALM, CALM))]

  /** The notifier after the call was settled, with what arrived since. */
  function Settling(late: seq<Envelope>): State {
    State(if late == [] then map[] else map["c" := late], map["t" := Stats(1, 0, 0)], {Owner(1), Agg(1)},
          [OwnerMessage(Stored), COUNTED_ONCE])
  }

  lemma EndedFirst(parse: string -> Option<int>)
    ensures HandleStep(INITIAL, LATE[0].inc, parse, LATE[0].w) == Step(Settling([]), true)
  {
    hide Sm.BuildSummary;
    EndedDigest(parse);
    assert Buffered(INITIAL, Ended()).pending == map["c" := [Ended()]] by { assert [] + [Ended()] == [Ended()]; }
    assert [] + [OwnerMessage(Stored)] + [COUNTED_ONCE] == [OwnerMessage(Stored), COUNTED_ONCE];
    assert {} + {Owner(1)} + {Agg(1)} == {Owner(1), Agg(1)};
    assert map["c" := [Ended()]] - {"c"} == map[];
  }

  lemma LateOnesBuffer(parse: string -> Option<int>)
    ensures HandleStep(Settling([]), LATE[1].inc, parse, LATE[1].w).state == Settling([Began()])
    ensures HandleStep(Settling([Began()]), LATE[2].inc, parse, LATE[2].w).state == Settling([Began(), Noted()])
  {
    assert [] + [Began()] == [Began()] && [Began()] + [Noted()] == [Began(), Noted()];
    assert map["c" := [Began()]]["c" := [Began(), Noted()]] == map["c" := [Began(), Noted()]];
  }

  function ClientMessageSent(): Effect { Message(Client(1), "555", ClientMessage(WholeDigest()), Stored) }

  lemma EndedAgain(parse: string -> Option<int>)
    ensures HandleStep(Settling([Began(), Noted()]), LATE[3].inc, parse, LATE[3].w).state.effects
         == [OwnerMessage(Stored), COUNTED_ONCE] + [ClientMessageSent()]
  {
    hide Sm.BuildSummary;
    WholeIsDigested(parse);
    var s := Settling([Began(), Noted()]);
    assert [Began(), Noted()] + [Ended()] == Whole();
    assert Buffered(s, Ended()).pending["c"] == Whole();
  }

  lemma RunFour(a: Op, b: Op, c: Op, d: Op, parse: string -> Option<int>)
    ensures Run([a], parse) == OpStep(INITIAL, a, parse).state
    ensures Run([a, b, c, d], parse)
         == OpStep(OpStep(OpStep(OpStep(INITIAL, a, parse).state, b, parse).state, c, parse).state, d, parse).state
  {
    hide OpStep;
    assert [a][..0] == [] && [a, b, c][..2] == [a, b] && [a, b, c, d][..3] == [a, b, c];
    RunTwo(a, b, parse);
    assert Run([a, b, c], parse) == OpStep(Run([a, b], parse), c, parse).state;
  }

  /** So a replay is not silent after late events: the call was settled and its end reported as
      handled, and yet the redelivered call.ended sends the caller a message. */
  lemma LateEventsMakeReplaySend(parse: string -> Option<int>)
    ensures var settled, r := Run(LATE[..1], parse), Run(LATE, parse);
            && HandleStep(INITIAL, LATE[0].inc, parse, LATE[0].w).ok
            && Settled(settled, 1, Digest(), OWNER.value)
            && settled.effects == [OwnerMessage(Stored), COUNTED_ONCE]
            && r.effects == [OwnerMessage(Stored), COUNTED_ONCE] + [ClientMessageSent()]
  {
    hide HandleStep;
    EndedFirst(parse);
    LateOnesBuffer(parse);
    EndedAgain(parse);
    RunFour(LATE[0], LATE[1], LATE[2], LATE[3], parse);
    assert LATE == [LATE[0], LATE[1], LATE[2], LATE[3]] && LATE[..1] == [LATE[0]];
  }
}
