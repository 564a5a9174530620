/** Conversations of a few turns, in which what one would expect of the agent fails. */
module AgentRuns {
  import opened Common
  import opened AgentModel
  import opened AgentSafety
  import opened AgentTools

  /** A tenant whose callers say few things: where they live (`near` is covered, `far` is not), that
      they agree, that they want the second slot, or that they want to leave a message. */
  const TENANT := Lexicon(
    text => false, text => false, text => false,
    text => if text == "near" || text == "far" then Some("boiler") else None,
    text => if text == "near" then Some("H2X 1Y4") else if text == "far" then Some("K1A 0B1") else None,
    postal => postal == "H2X 1Y4",
    text => if text == "near" || text == "far" then Some(Normal) else None,
    text => text == "message", text => false,
    text => text == "yes", text => false, text => false, text => text == "second",
    text => false, text => true,
    (phrase, locale) => "", (service, locale) => "", (slots, locale) => "", (slot, locale) => "")

  const A := CalendarSlot("a", "", "")

  const B := CalendarSlot("b", "", "")

  /** A turn in which everything works. */
  function Says(text: string, proposal: seq<CalendarSlot>): Turn { Turn(text, EnCa, None, proposal, Returns, Some("")) }

  lemma Runs(lx: Lexicon, t: Turn, u: Turn, v: Turn)
    ensures Run(lx, EnCa, [t]) == HandleTurn(lx, NewCall(EnCa), t)
    ensures Run(lx, EnCa, [t, u]) == HandleTurn(lx, Run(lx, EnCa, [t]), u)
    ensures Run(lx, EnCa, [t, u, v]) == HandleTurn(lx, Run(lx, EnCa, [t, u]), v)
  {
    hide HandleTurn;
    assert [t][..0] == [] && [t, u][..1] == [t] && [t, u, v][..2] == [t, u];
  }

  // --- trapped in scheduling

  lemma {:induction false} RunContinues(lx: Lexicon, locale: Locale, ts: seq<Turn>, more: seq<Turn>)
    ensures Run(lx, locale, ts + more) == Continue(lx, Run(lx, locale, ts), more)
  {
    hide HandleTurn;
    if more == [] {
      assert ts + more == ts;
    } else {
      assert (ts + more)[..|ts + more| - 1] == ts + more[..|more| - 1];
      RunContinues(lx, locale, ts, more[..|more| - 1]);
    }
  }

  /** The first turn qualifies the caller; what the calendar answers is offered. */
  lemma Offered(t: Turn)
    requires t.text == "near" && t.tool.Returns? && t.llm.Some?
    ensures var a := Run(TENANT, EnCa, [t]).agent;
            a.node.Schedule? && a.proposed == t.proposal && a.attempts == 0
  {
    Runs(TENANT, t, t, t);
    hide Run;
    var c := NewCall(EnCa);
    TurnAgent(TENANT, c, t);
    Qualifies(Screen(TENANT, Fresh(c.agent), t).agent, t);
    hide HandleTurn, Dialogue, TENANT;
  }

  lemma Qualifies(a: Agent, t: Turn)
    requires a.node.Greeting? && a.wish.Unknown? && a.slots == NO_SLOTS && t.text == "near"
    ensures var v := Dialogue(TENANT, a, t);
            && v.call == Some(Propose("boiler", Normal)) && v.agent.node.Schedule?
            && v.agent.proposed == t.proposal && v.agent.attempts == a.attempts
  {
    assert Extract(TENANT, t.text, NO_SLOTS)
        == Slots(Some("boiler"), Some("H2X 1Y4"), Some(true), Some(Normal), None, None);
    assert Classify(TENANT, t.text, Extract(TENANT, t.text, NO_SLOTS)).WantsSchedule?;
    hide Extract, Notes, Prefixes, Newly, Classify, AskWish, TENANT;
  }

  /** The calendar has nothing: whatever the caller says then, short of an emergency, the call stays
      in scheduling. */
  lemma {:induction false} NothingOfferedTraps(more: seq<Turn>)
    requires forall i :: 0 <= i < |more| ==> !TENANT.emergency(more[i].text)
    ensures Run(TENANT, EnCa, [Says("near", [])] + more).agent.node.Schedule?
  {
    Offered(Says("near", []));
    RunContinues(TENANT, EnCa, [Says("near", [])], more);
    hide TENANT, Run, Continue;
    NoSlotsTrap(TENANT, Run(TENANT, EnCa, [Says("near", [])]), more);
  }

  // --- a proposal that raised

  lemma FirstCall(t: Turn)
    requires t.text == "near"
    ensures TurnCall(TENANT, NewAgent(EnCa), t) == Some(Propose("boiler", Normal))
  {
    Qualifies(Screen(TENANT, Fresh(NewAgent(EnCa)), t).agent, t);
    hide Dialogue, TENANT;
  }

  lemma FarIsNotCovered(t: Turn)
    requires t.text == "far" && t.tool.Returns? && t.llm.Some?
    ensures HandleTurn(TENANT, NewCall(EnCa), t).agent.slots.inCoverage == Some(false)
  {
    var c := NewCall(EnCa);
    TurnAgent(TENANT, c, t);
    assert Extract(TENANT, t.text, NO_SLOTS)
        == Slots(Some("boiler"), Some("K1A 0B1"), Some(false), Some(Normal), None, None);
    hide HandleTurn, Notes, Prefixes, Newly, AskWish;
  }

  /** The calendar was asked for a caller who ends the turn after outside the coverage: the answer
      never came, and what the turn knew was forgotten. */
  lemma RaisedProposalForUncovered()
    ensures var ts := [Says("near", []).(tool := RaisesUndone), Says("far", [])];
            && CallAt(TENANT, EnCa, ts, 0) == Some(Propose("boiler", Normal))
            && Run(TENANT, EnCa, ts).agent.slots.inCoverage == Some(false)
  {
    var t, u := Says("near", []).(tool := RaisesUndone), Says("far", []);
    Runs(TENANT, t, u, u);
    FirstCall(t);
    TurnAgent(TENANT, NewCall(EnCa), t);
    FarIsNotCovered(u);
    hide TENANT, HandleTurn, TurnCall;
    assert [t, u][..0] == [];
    SameAgent(TENANT, NewCall(EnCa), Run(TENANT, EnCa, [t]), u);
  }

  // --- a key used twice

  lemma Chooses(a: Agent, t: Turn)
    requires a.node.Schedule? && a.proposed == [A, B] && (t.text == "yes" || t.text == "second")
    ensures TurnCall(TENANT, a, t) == Some(Book(if t.text == "yes" then "a" else "b", a.attempts + 1))
  {
    hide Prefixes;
  }

  /** The caller agrees, the calendar books, but the tool or the model raises; asked again, the
      caller takes the second slot. It is requested under the same key, so the calendar keeps the
      first, and the agent tells the second. */
  lemma RetryBooksFirstTellsSecond(yes: Turn, callId: string)
    requires yes.text == "yes" && (yes.tool.RaisesDone? || (yes.tool.Returns? && yes.llm.None?))
    ensures var ts := Retried(yes);
            && CallAt(TENANT, EnCa, ts, 1) == Some(Book("a", 1)) && CallAt(TENANT, EnCa, ts, 2) == Some(Book("b", 1))
            && Run(TENANT, EnCa, ts).agent.slots.preferredSlot == Some("b")
            && Held(TENANT, EnCa, ts, callId, 3) == map[BookKey(callId, 1) := "a"]
  {
    RetryCalls(yes);
    var ts := Retried(yes);
    hide TENANT, HandleTurn, TurnCall, Raises, Run, BookKey, CallAt;
    var key := BookKey(callId, 1);
    assert Effect(TENANT, EnCa, ts, callId, 0) == None;
    assert Effect(TENANT, EnCa, ts, callId, 1) == Some((key, "a"));
    assert Effect(TENANT, EnCa, ts, callId, 2) == Some((key, "b"));
    HeldOfThree(ts, callId, key, "a");
  }

  function Retried(yes: Turn): seq<Turn> { [Says("near", [A, B]), yes, Says("second", [])] }

  lemma HeldOfThree(ts: seq<Turn>, callId: string, key: string, first: string)
    requires |ts| == 3 && Effect(TENANT, EnCa, ts, callId, 0) == None
    requires Effect(TENANT, EnCa, ts, callId, 1) == Some((key, first)) && Uses(TENANT, EnCa, ts, callId, 2, key)
    ensures Held(TENANT, EnCa, ts, callId, 3) == map[key := first]
  {
    hide Effect, TENANT;
    assert Held(TENANT, EnCa, ts, callId, 0) == map[];
    assert Held(TENANT, EnCa, ts, callId, 1) == map[];
    assert Held(TENANT, EnCa, ts, callId, 2) == map[key := first];
  }

  /** The state after the turn that raised is the one before it. */
  lemma Raised(yes: Turn)
    requires yes.text == "yes" && (yes.tool.RaisesDone? || (yes.tool.Returns? && yes.llm.None?))
    ensures var t := Says("near", [A, B]);
            var a := Run(TENANT, EnCa, [t, yes]).agent;
            && a == Run(TENANT, EnCa, [t]).agent
            && a.node.Schedule? && a.proposed == [A, B] && a.attempts == 0
            && TurnCall(TENANT, a, yes) == Some(Book("a", 1))
  {
    hide Run, HandleTurn, TurnCall, TENANT;
    var t := Says("near", [A, B]);
    Runs(TENANT, t, yes, yes);
    Offered(t);
    RaisesInPlace(Run(TENANT, EnCa, [t]), yes);
  }

  lemma RaisesInPlace(c: Call, yes: Turn)
    requires c.agent.node.Schedule? && c.agent.proposed == [A, B]
    requires yes.text == "yes" && (yes.tool.RaisesDone? || (yes.tool.Returns? && yes.llm.None?))
    ensures HandleTurn(TENANT, c, yes).agent == c.agent
    ensures TurnCall(TENANT, c.agent, yes) == Some(Book("a", c.agent.attempts + 1))
  {
    hide HandleTurn, TurnCall, TENANT;
    Chooses(c.agent, yes);
    TurnAgent(TENANT, c, yes);
    assert Raises(TENANT, c.agent, yes);
  }

  lemma RetryCalls(yes: Turn)
    requires yes.text == "yes" && (yes.tool.RaisesDone? || (yes.tool.Returns? && yes.llm.None?))
    ensures var ts := Retried(yes);
            && CallAt(TENANT, EnCa, ts, 0) == Some(Propose("boiler", Normal))
            && CallAt(TENANT, EnCa, ts, 1) == Some(Book("a", 1)) && CallAt(TENANT, EnCa, ts, 2) == Some(Book("b", 1))
            && Run(TENANT, EnCa, ts).agent.slots.preferredSlot == Some("b")
  {
    hide Run, HandleTurn, TurnCall, TENANT, Raises;
    var t, u := Says("near", [A, B]), Says("second", []);
    var ts := Retried(yes);
    assert ts[..0] == [] && ts[..1] == [t] && ts[..2] == [t, yes] && ts == [t, yes, u];
    NoTurns();
    FirstCall(t);
    Raised(yes);
    TakesSecond(Run(TENANT, EnCa, [t, yes]), u);
    Runs(TENANT, t, yes, u);
  }

  lemma TakesSecond(c: Call, u: Turn)
    requires c.agent.node.Schedule? && c.agent.proposed == [A, B] && u == Says("second", [])
    ensures TurnCall(TENANT, c.agent, u) == Some(Book("b", c.agent.attempts + 1))
    ensures HandleTurn(TENANT, c, u).agent.slots.preferredSlot == Some("b")
  {
    hide HandleTurn, TurnCall, TENANT, Raises;
    Chooses(c.agent, u);
    Scheduled(c.agent, u);
    BookedIsPreferred(TENANT, c, u);
  }

  lemma NoTurns()
    ensures Run(TENANT, EnCa, []) == NewCall(EnCa)
  {}

  lemma Scheduled(a: Agent, t: Turn)
    requires a.node.Schedule? && t.text == "second" && t.tool.Returns? && t.llm.Some?
    ensures !Raises(TENANT, a, t)
  {
    hide Scheduling;
  }

  // --- a second message

  /** From a call that waits for a message, three ordinary turns lead back to waiting for one. */
  lemma MessageLoop(lx: Lexicon, c: Call, first: Turn, again: Turn, ask: Turn)
    requires c.agent.node.Message?
    requires forall t :: t in [first, again, ask] ==> !lx.emergency(t.text) && t.tool.Returns? && t.llm.Some?
    requires lx.yes(again.text) && !lx.no(again.text) && lx.asksMessage(ask.text)
    ensures HandleTurn(lx, HandleTurn(lx, HandleTurn(lx, c, first), again), ask).agent.node.Message?
  {
    assert first in [first, again, ask] && again in [first, again, ask] && ask in [first, again, ask];
    MessageThenConfirm(lx, c, first);
    var c1 := HandleTurn(lx, c, first);
    YesThenIntent(lx, c1, again);
    AskThenMessage(lx, HandleTurn(lx, c1, again), ask);
    hide HandleTurn;
  }

  lemma MessageThenConfirm(lx: Lexicon, c: Call, t: Turn)
    requires c.agent.node.Message? && !lx.emergency(t.text) && t.tool.Returns? && t.llm.Some?
    ensures HandleTurn(lx, c, t).agent.node.Confirm?
  {
    TurnAgent(lx, c, t);
    hide HandleTurn, Prefixes;
  }

  lemma YesThenIntent(lx: Lexicon, c: Call, t: Turn)
    requires c.agent.node.Confirm? && !lx.emergency(t.text) && t.llm.Some? && lx.yes(t.text) && !lx.no(t.text)
    ensures HandleTurn(lx, c, t).agent.node.Intent? && HandleTurn(lx, c, t).agent.wish.Unknown?
  {
    TurnAgent(lx, c, t);
    hide HandleTurn;
  }

  lemma AskThenMessage(lx: Lexicon, c: Call, t: Turn)
    requires (c.agent.node.Intent? || c.agent.node.Greeting?) && c.agent.wish.Unknown?
    requires !lx.emergency(t.text) && t.llm.Some? && lx.asksMessage(t.text)
    ensures HandleTurn(lx, c, t).agent.node.Message?
  {
    TurnAgent(lx, c, t);
    hide HandleTurn, Prefixes, Extract, Newly, Notes;
  }

  // --- after the goodbye

  lemma OtherwiseGoodbye(lx: Lexicon, c: Call, t: Turn)
    requires c.agent.node.Confirm? && !lx.emergency(t.text) && t.llm.Some? && !lx.yes(t.text)
    ensures HandleTurn(lx, c, t).agent.node.Done?
  {
    TurnAgent(lx, c, t);
    hide HandleTurn;
  }

  lemma DoneRaises(lx: Lexicon, c: Call, t: Turn)
    requires c.agent.node.Done? && !lx.emergency(t.text)
    ensures Raises(lx, c.agent, t) && HandleTurn(lx, c, t).agent == c.agent
  {
    TurnAgent(lx, c, t);
    hide HandleTurn, Visit;
  }

  /** A call that leaves a message and says goodbye; whatever the caller says then raises. */
  lemma AfterGoodbyeRaises(more: Turn)
    ensures var ts := [Says("message", []), Says("call me", []), Says("bye", [])];
            && Run(TENANT, EnCa, ts).agent.node.Done?
            && Raises(TENANT, Run(TENANT, EnCa, ts).agent, more)
  {
    var t, u, v := Says("message", []), Says("call me", []), Says("bye", []);
    hide HandleTurn, Run, Raises;
    Runs(TENANT, t, u, v);
    FirstAsks(t);
    MessageThenConfirm(TENANT, Run(TENANT, EnCa, [t]), u);
    OtherwiseGoodbye(TENANT, Run(TENANT, EnCa, [t, u]), v);
    DoneRaises(TENANT, Run(TENANT, EnCa, [t, u, v]), more);
  }

  // --- two messages

  const TWO_MESSAGES := [
    Says("message", []), Says("call me", []), Says("yes", []), Says("message", []), Says("hurry", [])]

  lemma WaitsTwice()
    ensures Run(TENANT, EnCa, TWO_MESSAGES[..1]).agent.node.Message?
    ensures Run(TENANT, EnCa, TWO_MESSAGES[..4]).agent.node.Message?
  {
    hide HandleTurn, Run, TENANT;
    var ts := TWO_MESSAGES;
    FirstAsks(ts[0]);
    assert ts[..1] == [ts[0]];
    FirstLoops(Run(TENANT, EnCa, ts[..1]), ts[1], ts[2], ts[3]);
    FourRuns(ts);
  }

  lemma FourRuns(ts: seq<Turn>)
    requires |ts| > 3
    ensures Run(TENANT, EnCa, ts[..4])
         == HandleTurn(TENANT, HandleTurn(TENANT, HandleTurn(TENANT, Run(TENANT, EnCa, ts[..1]), ts[1]), ts[2]), ts[3])
  {
    hide HandleTurn, Run, TENANT;
    RunNext(TENANT, EnCa, ts, 1);
    RunNext(TENANT, EnCa, ts, 2);
    RunNext(TENANT, EnCa, ts, 3);
  }

  lemma FirstAsks(t: Turn)
    requires t.text == "message" && t.llm.Some?
    ensures Run(TENANT, EnCa, [t]).agent.node.Message?
  {
    Runs(TENANT, t, t, t);
    hide Run, HandleTurn;
    AskThenMessage(TENANT, NewCall(EnCa), t);
  }

  lemma FirstLoops(c: Call, first: Turn, again: Turn, ask: Turn)
    requires c.agent.node.Message? && again.text == "yes" && ask.text == "message"
    requires forall t :: t in [first, again, ask] ==> t.tool.Returns? && t.llm.Some?
    ensures HandleTurn(TENANT, HandleTurn(TENANT, HandleTurn(TENANT, c, first), again), ask).agent.node.Message?
  {
    hide HandleTurn;
    MessageLoop(TENANT, c, first, again, ask);
  }

  /** The caller leaves a message, agrees to more, and leaves another, which the store does not keep. */
  lemma SecondMessageIsLost(callId: string)
    ensures DeliversAt(TENANT, EnCa, TWO_MESSAGES, 1) && DeliversAt(TENANT, EnCa, TWO_MESSAGES, 4)
    ensures !KeptAt(TENANT, EnCa, TWO_MESSAGES, callId, 4)
  {
    WaitsTwice();
    hide Run;
    var ts := TWO_MESSAGES;
    assert DeliversAt(TENANT, EnCa, ts, 1) && DeliversAt(TENANT, EnCa, ts, 4);
    hide KeptAt, DeliversAt, TENANT;
    MessageKeptIffFirst(TENANT, EnCa, ts, callId, 4);
  }
}
