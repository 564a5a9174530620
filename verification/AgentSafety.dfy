/** What every conversation keeps, whatever its tools and its model do: slots, the calendar, the
    end of the call. */
module AgentSafety {
  import opened Common
  import opened AgentModel

  // --- slots

  /** What was set stays. */
  ghost predicate SlotsKept(a: Slots, b: Slots) {
    && (a.service.Some? ==> b.service == a.service)
    && (a.postalCode.Some? ==> b.postalCode == a.postalCode && b.inCoverage == a.inCoverage)
    && (a.urgency.Some? ==> b.urgency == a.urgency)
  }

  ghost predicate CoverageKnown(lx: Lexicon, s: Slots) {
    s.inCoverage == if s.postalCode.Some? then Some(lx.covers(s.postalCode.value)) else None
  }

  /** The caller may be offered an appointment. */
  ghost predicate Bookable(s: Slots) { Qualified(s) && s.inCoverage == Some(true) }

  ghost predicate Safe(lx: Lexicon, a: Agent) {
    && CoverageKnown(lx, a.slots)
    && (a.node.Schedule? ==> Bookable(a.slots))
    && (a.ended <==> a.node.Done?)
    && (a.turn > 0 <==> !a.node.Greeting?)
  }

  /** A calendar call goes with these slots. */
  ghost predicate Fits(call: ToolCall, s: Slots) {
    match call
    case Propose(service, urgency) => Bookable(s) && Some(service) == s.service && Some(urgency) == s.urgency
    case Book(_, _) => Bookable(s)
    case Take(_, _) => true
  }

  ghost predicate CallFits(call: Option<ToolCall>, s: Slots) { call.Some? ==> Fits(call.value, s) }

  lemma ExtractKeeps(lx: Lexicon, text: string, s: Slots)
    requires CoverageKnown(lx, s)
    ensures SlotsKept(s, Extract(lx, text, s)) && CoverageKnown(lx, Extract(lx, text, s))
  {}

  lemma LadderFits(lx: Lexicon, locale: Locale, proposal: seq<CalendarSlot>, s: Slots)
    requires CoverageKnown(lx, s)
    ensures var m := Ladder(lx, locale, proposal, s);
            && CallFits(m.call, s) && (m.node.Schedule? ==> Bookable(s))
            && (m.node.Qualify? || m.node.Message? || m.node.Schedule?)
  {
    if Qualified(s) && s.inCoverage != Some(false) { assert s.inCoverage.value != false; }
  }

  lemma MoveFits(lx: Lexicon, a: Agent, t: Turn, at: Node, s: Slots, wish: Wish, idle: bool)
    requires CoverageKnown(lx, s) && (at.Intent? || at.Qualify?)
    ensures var m := NextMove(lx, a, t, at, s, wish, idle);
            && CallFits(m.call, s) && (m.node.Schedule? ==> Bookable(s))
            && !m.node.Greeting? && !m.node.Done?
  {
    hide Fits, Bookable, Ladder, CoverageKnown, AskWish;
    LadderFits(lx, a.locale, t.proposal, s);
  }

  /** Where a node may lead. */
  ghost predicate Lands(lx: Lexicon, a: Agent, v: Visited) {
    && SlotsKept(a.slots, v.agent.slots) && CoverageKnown(lx, v.agent.slots)
    && CallFits(v.call, v.agent.slots)
    && (v.agent.node.Schedule? ==> Bookable(v.agent.slots))
    && (v.agent.ended <==> v.agent.node.Done?) && v.agent.turn == a.turn
    && !v.agent.node.Greeting?
  }

  lemma DialogueFits(lx: Lexicon, a: Agent, t: Turn)
    requires CoverageKnown(lx, a.slots) && Route(a).ToDialogue? && !a.ended
    ensures Lands(lx, a, Dialogue(lx, a, t))
  {
    hide NextMove, Extract, CoverageKnown, Bookable, Prefixes, CallFits, SlotsKept, Classify, Newly, Qualified, Notes;
    var slots := Extract(lx, t.text, a.slots);
    ExtractKeeps(lx, t.text, a.slots);
    var node := if a.node.Greeting? then Intent else a.node;
    var newly := Newly(a.slots, slots);
    var wish := if a.wish.Unknown? then Classify(lx, t.text, slots) else a.wish;
    var learned := a.wish.Unknown? && !wish.Unknown?;
    var idle := newly == [] && a.node.Qualify? && !Qualified(slots) && !a.injection && !a.priceQuestion;
    MoveFits(lx, a, t, if learned then Qualify else node, slots, wish, idle);
  }

  lemma VisitFits(lx: Lexicon, a: Agent, t: Turn)
    requires CoverageKnown(lx, a.slots) && (a.node.Schedule? ==> Bookable(a.slots)) && !Route(a).NoEdge?
    requires a.ended <==> a.node.Done?
    ensures Lands(lx, a, Visit(lx, a, t))
  {
    hide Dialogue, Scheduling, TakingMessage, Lands;
    match Route(a)
    case ToDialogue => DialogueFits(lx, a, t);
    case ToSchedule => SchedulingFits(lx, a, t);
    case ToMessage => MessageFits(lx, a, t);
    case _ => LastNodesFit(lx, a, t);
  }

  lemma SchedulingFits(lx: Lexicon, a: Agent, t: Turn)
    requires CoverageKnown(lx, a.slots) && Bookable(a.slots) && a.node.Schedule? && !a.ended
    ensures Lands(lx, a, Scheduling(lx, a, t))
  {
    hide Prefixes, PickSlot;
  }

  lemma MessageFits(lx: Lexicon, a: Agent, t: Turn)
    requires CoverageKnown(lx, a.slots) && a.node.Message? && !a.ended
    ensures Lands(lx, a, TakingMessage(lx, a, t))
  {
    hide Prefixes;
  }

  lemma LastNodesFit(lx: Lexicon, a: Agent, t: Turn)
    requires CoverageKnown(lx, a.slots)
    ensures Lands(lx, a, Transfer(lx, a))
    ensures !a.ended ==> Lands(lx, a, Confirming(lx, a, t))
  {
    KeptItself(a.slots);
    hide SlotsKept, CoverageKnown, Bookable;
  }

  /** The state a turn leaves is the one it found, when it raises, or the one its node made, with
      the model's reply. */
  lemma TurnAgent(lx: Lexicon, c: Call, t: Turn)
    ensures var s, r := Screen(lx, Fresh(c.agent), t).agent, HandleTurn(lx, c, t).agent;
            if Raises(lx, c.agent, t) then r == c.agent
            else
              var v := Visit(lx, s, t).agent;
              !Route(s).NoEdge? && r == v.(reply := r.reply, history := r.history)
  {
    hide Screen, Visit, Fresh, Route;
  }

  lemma TurnSafe(lx: Lexicon, c: Call, t: Turn)
    requires Safe(lx, c.agent)
    ensures Safe(lx, HandleTurn(lx, c, t).agent) && SlotsKept(c.agent.slots, HandleTurn(lx, c, t).agent.slots)
  {
    TurnAgent(lx, c, t);
    hide HandleTurn, Visit, Bookable, CoverageKnown;
    if Raises(lx, c.agent, t) {
      KeptItself(c.agent.slots);
    } else {
      VisitFits(lx, Screen(lx, Fresh(c.agent), t).agent, t);
      hide SlotsKept;
    }
  }

  /** Over every conversation: coverage is known exactly with the postal code, scheduling is for
      qualified, covered callers only, and ended means done. */
  lemma {:induction false} RunSafe(lx: Lexicon, locale: Locale, ts: seq<Turn>)
    ensures Safe(lx, Run(lx, locale, ts).agent)
  {
    if ts != [] {
      RunSafe(lx, locale, ts[..|ts| - 1]);
      TurnSafe(lx, Run(lx, locale, ts[..|ts| - 1]), ts[|ts| - 1]);
    }
  }

  lemma KeptOverTwo(a: Slots, b: Slots, c: Slots)
    requires SlotsKept(a, b) && SlotsKept(b, c)
    ensures SlotsKept(a, c)
  {}

  lemma KeptItself(a: Slots)
    ensures SlotsKept(a, a)
  {}

  /** Service, postal code, coverage and urgency never change once set, over any continuation. */
  lemma {:induction false} SlotsNeverChange(lx: Lexicon, locale: Locale, ts: seq<Turn>, more: seq<Turn>)
    ensures SlotsKept(Run(lx, locale, ts).agent.slots, Run(lx, locale, ts + more).agent.slots)
  {
    hide HandleTurn, Safe, SlotsKept;
    if more == [] {
      assert ts + more == ts;
      KeptItself(Run(lx, locale, ts).agent.slots);
    } else {
      var fewer := ts + more[..|more| - 1];
      assert (ts + more)[..|ts + more| - 1] == fewer;
      SlotsNeverChange(lx, locale, ts, more[..|more| - 1]);
      RunSafe(lx, locale, fewer);
      TurnSafe(lx, Run(lx, locale, fewer), more[|more| - 1]);
      KeptOverTwo(Run(lx, locale, ts).agent.slots, Run(lx, locale, fewer).agent.slots,
                  Run(lx, locale, ts + more).agent.slots);
    }
  }

  // --- the calendar

  /** The slots a turn knows, whether or not it completes. */
  function TurnSlots(lx: Lexicon, a: Agent, t: Turn): Slots {
    var s := Screen(lx, Fresh(a), t).agent;
    if Route(s).ToDialogue? then Extract(lx, t.text, a.slots) else a.slots
  }

  lemma FitsLater(call: ToolCall, a: Slots, b: Slots)
    requires Fits(call, a) && SlotsKept(a, b)
    ensures Fits(call, b)
  {}

  lemma TurnCallFits(lx: Lexicon, c: Call, t: Turn)
    requires Safe(lx, c.agent)
    ensures var call, r := TurnCall(lx, c.agent, t), HandleTurn(lx, c, t).agent;
            && CallFits(call, TurnSlots(lx, c.agent, t))
            && (call.Some? && (call.value.Book? || !Raises(lx, c.agent, t)) ==> Fits(call.value, r.slots))
  {
    TurnAgent(lx, c, t);
    TurnSafe(lx, c, t);
    var s := Screen(lx, Fresh(c.agent), t).agent;
    if !Route(s).NoEdge? {
      VisitFits(lx, s, t);
      VisitSlots(lx, s, t);
      hide HandleTurn, Visit, Raises, Bookable;
    }
  }

  /** Apart from a preference or a message the node leaves the slots the turn knows. */
  lemma VisitSlots(lx: Lexicon, s: Agent, t: Turn)
    requires !Route(s).NoEdge?
    ensures var v, x := Visit(lx, s, t), if Route(s).ToDialogue? then Extract(lx, t.text, s.slots) else s.slots;
            && v.agent.slots == x.(preferredSlot := v.agent.slots.preferredSlot,
                                   messageText := v.agent.slots.messageText)
            && (v.call.Some? && v.call.value.Book? ==> s.node.Schedule?)
  {
    hide Prefixes, Extract, Newly, Notes, Classify, PickSlot;
    if Route(s).ToDialogue? { DialogueBooksNothing(lx, s, t); }
  }

  lemma DialogueBooksNothing(lx: Lexicon, a: Agent, t: Turn)
    ensures var v := Dialogue(lx, a, t);
            && (v.call.Some? ==> v.call.value.Propose?)
            && v.agent.slots == Extract(lx, t.text, a.slots) && v.agent.attempts == a.attempts
  {
    hide Prefixes, Extract, Newly, Notes, Classify, AskWish;
  }

  /** The calendar is used only for a caller whose service, postal code and urgency are known to
      the turn and whose address is covered, and with exactly that service and urgency. What a
      booking or a completed turn relied on holds in every later turn; of a proposal that raised
      nothing need be kept. */
  lemma CalendarOnlyWhenBookable(lx: Lexicon, locale: Locale, ts: seq<Turn>, i: nat)
    requires i < |ts|
    ensures var a := Run(lx, locale, ts[..i]).agent;
            var call, known, last := TurnCall(lx, a, ts[i]), TurnSlots(lx, a, ts[i]), Run(lx, locale, ts).agent.slots;
            call.Some? && !call.value.Take? ==>
              && Qualified(known) && known.inCoverage == Some(lx.covers(known.postalCode.value)) == Some(true)
              && (call.value.Propose? ==> call.value == Propose(known.service.value, known.urgency.value))
              && (call.value.Book? || !Raises(lx, a, ts[i]) ==> Fits(call.value, last))
  {
    var c, d := Run(lx, locale, ts[..i]), Run(lx, locale, ts[..i + 1]);
    RunThrough(lx, locale, ts, i);
    hide Run, TurnCall, Raises, HandleTurn, TurnSlots, SlotsKept;
    RunSafe(lx, locale, ts[..i]);
    TurnCallFits(lx, c, ts[i]);
    TurnCoverage(lx, c.agent, ts[i]);
    hide Safe, CoverageKnown;
    var call := TurnCall(lx, c.agent, ts[i]);
    if call.Some? && Fits(call.value, d.agent.slots) {
      FitsLater(call.value, d.agent.slots, Run(lx, locale, ts).agent.slots);
    }
  }

  /** A run passes through the state after turn `i`, and keeps its slots. */
  lemma RunThrough(lx: Lexicon, locale: Locale, ts: seq<Turn>, i: nat)
    requires i < |ts|
    ensures Run(lx, locale, ts[..i + 1]) == HandleTurn(lx, Run(lx, locale, ts[..i]), ts[i])
    ensures SlotsKept(Run(lx, locale, ts[..i + 1]).agent.slots, Run(lx, locale, ts).agent.slots)
  {
    hide HandleTurn, SlotsKept;
    assert ts[..i + 1][..i] == ts[..i];
    SlotsNeverChange(lx, locale, ts[..i + 1], ts[i + 1..]);
    assert ts[..i + 1] + ts[i + 1..] == ts;
  }

  lemma TurnCoverage(lx: Lexicon, a: Agent, t: Turn)
    requires CoverageKnown(lx, a.slots)
    ensures var s := TurnSlots(lx, a, t);
            s.inCoverage == if s.postalCode.Some? then Some(lx.covers(s.postalCode.value)) else None
  {
    ExtractKeeps(lx, t.text, a.slots);
    hide Extract;
  }

  // --- turns that raise

  /** The turns that complete. */
  function Completed(lx: Lexicon, locale: Locale, ts: seq<Turn>): seq<Turn> {
    if ts == [] then []
    else
      var u, t := ts[..|ts| - 1], ts[|ts| - 1];
      Completed(lx, locale, u) + if Raises(lx, Run(lx, locale, u).agent, t) then [] else [t]
  }

  /** A turn that raised leaves no trace in the state: it is the state of the run without it. So
      the caller can say the same again, and nothing but the events will tell. */
  lemma {:induction false} RaisedTurnsLeaveNoTrace(lx: Lexicon, locale: Locale, ts: seq<Turn>)
    ensures Run(lx, locale, Completed(lx, locale, ts)).agent == Run(lx, locale, ts).agent
  {
    if ts != [] {
      var u, t := ts[..|ts| - 1], ts[|ts| - 1];
      RaisedTurnsLeaveNoTrace(lx, locale, u);
      var c, done := Run(lx, locale, u), Completed(lx, locale, u);
      hide HandleTurn, Raises;
      if Raises(lx, c.agent, t) {
        TurnAgent(lx, c, t);
        assert done + [] == done;
      } else {
        RunAppend(lx, locale, done, t);
        SameAgent(lx, c, Run(lx, locale, done), t);
      }
    }
  }

  lemma RunAppend(lx: Lexicon, locale: Locale, ts: seq<Turn>, t: Turn)
    ensures Run(lx, locale, ts + [t]) == HandleTurn(lx, Run(lx, locale, ts), t)
  {
    hide HandleTurn;
    assert (ts + [t])[..|ts|] == ts;
  }

  lemma SameAgent(lx: Lexicon, c: Call, d: Call, t: Turn)
    requires c.agent == d.agent
    ensures HandleTurn(lx, c, t).agent == HandleTurn(lx, d, t).agent
  {
    hide Screen, Visit, Respond, ToolEvents;
  }

  /** While the tools and the model work, a turn raises exactly after the conversation is over,
      unless it is an emergency. Whatever raises, the state stays and the events only grow. */
  lemma RaisesIffOver(lx: Lexicon, locale: Locale, ts: seq<Turn>, t: Turn)
    ensures var c := Run(lx, locale, ts);
            && (t.tool.Returns? && t.llm.Some? ==>
                  (Raises(lx, c.agent, t) <==> c.agent.ended && !lx.emergency(t.text)))
            && (Raises(lx, c.agent, t) ==> HandleTurn(lx, c, t).agent == c.agent)
            && c.events <= HandleTurn(lx, c, t).events
  {
    RunSafe(lx, locale, ts);
    var c := Run(lx, locale, ts);
    TurnAgent(lx, c, t);
    hide Run, CoverageKnown, Bookable, Visit, Respond, ToolEvents;
  }

  /** An emergency is announced for transfer at once from any node, without any tool call, and ends
      the conversation unless the model raises. */
  lemma EmergencyTransfers(lx: Lexicon, c: Call, t: Turn)
    requires lx.emergency(t.text)
    ensures var r := HandleTurn(lx, c, t);
            && (r.agent.ended || (t.llm.None? && r.agent == c.agent)) && c.events <= r.events
            && (exists e :: e in r.events[|c.events|..] && e.TransferInitiated?)
            && forall e :: e in r.events[|c.events|..] ==> !e.ToolInvoked?
  {
    var s := Screen(lx, Fresh(c.agent), t);
    var v := Transfer(lx, s.agent);
    assert Visit(lx, s.agent, t) == v;
    var said := if t.llm.Some? then Respond(lx, v.agent, t).events else [];
    if t.llm.Some? { RespondsWithoutTools(lx, v.agent, t); }
    var added := s.events + (v.notes + []) + said;
    hide Screen, Respond, Visit;
    var r := HandleTurn(lx, c, t);
    assert r.events == c.events + added;
    assert r.events[|c.events|..] == added;
    assert v.notes[0] in v.notes + [];
    assert v.notes[0] in added;
    ScreensWithoutTools(lx, Fresh(c.agent), t);
    TurnAgent(lx, c, t);
    RespondKeepsEnd(lx, c, t, v.agent);
  }

  lemma RespondKeepsEnd(lx: Lexicon, c: Call, t: Turn, a: Agent)
    ensures t.llm.Some? ==> Respond(lx, a, t).agent.ended == a.ended
  {}

  lemma ScreensWithoutTools(lx: Lexicon, a: Agent, t: Turn)
    ensures forall e :: e in Screen(lx, a, t).events ==> !e.ToolInvoked?
  {}

  lemma RespondsWithoutTools(lx: Lexicon, a: Agent, t: Turn)
    requires t.llm.Some?
    ensures forall e :: e in Respond(lx, a, t).events ==> !e.ToolInvoked?
  {}

  // --- scheduling

  function Continue(lx: Lexicon, c: Call, ts: seq<Turn>): Call {
    if ts == [] then c else HandleTurn(lx, Continue(lx, c, ts[..|ts| - 1]), ts[|ts| - 1])
  }

  /** An empty calendar answer traps the caller: only an emergency leaves the scheduling node. */
  lemma {:induction false} NoSlotsTrap(lx: Lexicon, c: Call, ts: seq<Turn>)
    requires c.agent.node.Schedule? && c.agent.proposed == []
    requires forall i :: 0 <= i < |ts| ==> !lx.emergency(ts[i].text)
    ensures var r := Continue(lx, c, ts).agent; r.node.Schedule? && r.proposed == []
  {
    if ts != [] {
      NoSlotsTrap(lx, c, ts[..|ts| - 1]);
      TrappedTurn(lx, Continue(lx, c, ts[..|ts| - 1]), ts[|ts| - 1]);
    }
  }

  lemma TrappedTurn(lx: Lexicon, c: Call, t: Turn)
    requires c.agent.node.Schedule? && c.agent.proposed == [] && !lx.emergency(t.text)
    ensures var r := HandleTurn(lx, c, t).agent; r.node.Schedule? && r.proposed == []
  {
    TurnAgent(lx, c, t);
    hide HandleTurn, Prefixes;
  }

  /** With some slot offered, a single agreeing turn that completes books it; so the caller is
      trapped exactly when the calendar offered nothing. */
  lemma AgreeingLeavesIffOffered(lx: Lexicon, c: Call, t: Turn)
    requires c.agent.node.Schedule? && lx.yes(t.text) && !lx.emergency(t.text)
    ensures HandleTurn(lx, c, t).agent.node.Schedule?
       <==> c.agent.proposed == [] || !t.tool.Returns? || t.llm.None?
  {
    TurnAgent(lx, c, t);
    hide HandleTurn, Prefixes;
  }
}
