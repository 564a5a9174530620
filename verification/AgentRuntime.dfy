/** The runtime as the object it is: the state replaced at the end of a turn, events appended to
    the emitter as they happen, slots filled in place. */
module AgentRuntime {
  import opened Common
  import opened AgentModel

  /** The copy of the slots a dialogue turn fills. */
  class SlotBag {
    var service: Option<string>
    var postalCode: Option<string>
    var inCoverage: Option<bool>
    var urgency: Option<Urgency>
    const preferredSlot: Option<string>
    const messageText: Option<string>

    function View(): Slots
      reads this
    {
      Slots(service, postalCode, inCoverage, urgency, preferredSlot, messageText)
    }

    constructor (s: Slots)
      ensures View() == s
    {
      service, postalCode, inCoverage, urgency := s.service, s.postalCode, s.inCoverage, s.urgency;
      preferredSlot, messageText := s.preferredSlot, s.messageText;
    }
  }

  method ExtractSlots(lx: Lexicon, text: string, slots: SlotBag) returns (newly: seq<(string, string)>)
    modifies slots
    ensures slots.View() == Extract(lx, text, old(slots.View()))
    ensures newly == Newly(old(slots.View()), slots.View())
  {
    newly := [];
    if slots.service.None? {
      slots.service := lx.service(text);
      if slots.service.Some? {
        newly := newly + [("service", slots.service.value)];
      }
    }
    if slots.postalCode.None? {
      var m := lx.postal(text);
      if m.Some? {
        slots.postalCode := m;
        slots.inCoverage := Some(lx.covers(m.value));
        newly := newly + [("postal_code", m.value), ("in_coverage", BoolText(slots.inCoverage.value))];
      }
    }
    if slots.urgency.None? {
      slots.urgency := lx.urgency(text);
      if slots.urgency.Some? {
        newly := newly + [("urgency", UrgencyText(slots.urgency.value))];
      }
    }
  }

  class Runtime {
    const lx: Lexicon
    var state: Agent
    var emitted: seq<Event>
    var tiers: seq<(nat, bool)>

    ghost function View(): Call
      reads this
    {
      Call(state, emitted, tiers)
    }

    constructor (lx: Lexicon, locale: Locale)
      ensures this.lx == lx && View() == NewCall(locale)
    {
      this.lx := lx;
      state, emitted, tiers := NewAgent(locale), [], [];
    }

    method Emit(es: seq<Event>)
      modifies this`emitted
      ensures emitted == old(emitted) + es
    {
      emitted := emitted + es;
    }

    method ScreenTurn(a: Agent, t: Turn) returns (r: Agent)
      modifies this`emitted
      ensures r == Screen(lx, a, t).agent && emitted == old(emitted) + Screen(lx, a, t).events
    {
      var locale := a.locale;
      if a.turn == 1 {
        locale := t.detected;
        Emit([LanguageDetected(locale, a.node)]);
      } else if t.switched.Some? {
        Emit([LanguageSwitched(a.locale, t.switched.value, a.node)]);
        locale := t.switched.value;
      }
      Emit([SttFinal(t.text, locale, a.node)]);
      r := a.(prevNode := a.node, locale := locale,
              emergency := lx.emergency(t.text), injection := lx.injection(t.text),
              priceQuestion := lx.priceQuestion(t.text));
      if r.injection || r.emergency {
        r := r.(reasoning := true);
      }
    }

    method EmitAssigned(newly: seq<(string, string)>, node: Node)
      modifies this`emitted
      ensures emitted == old(emitted) + Assigned(newly, node)
    {
      for i := 0 to |newly|
        invariant emitted + Assigned(newly[i..], node) == old(emitted) + Assigned(newly, node)
      {
        assert newly[i..][0] == newly[i] && newly[i..][1..] == newly[i + 1..];
        Emit([VarAssigned(newly[i].0, newly[i].1, node)]);
      }
      assert newly[|newly|..] == [];
    }

    /** Announces a call, makes it, and reports it; an exception leaves only the announcement. */
    method CallTool(call: ToolCall, at: Node, tool: Outcome) returns (ok: bool)
      modifies this`emitted
      ensures emitted == old(emitted) + ToolEvents(Some(call), at, tool) && ok == tool.Returns?
    {
      Emit([ToolInvoked(call, at)]);
      if !tool.Returns? {
        return false;
      }
      Emit([ToolCompleted(call, at)]);
      return true;
    }

    method DialogueTurn(a: Agent, t: Turn) returns (r: Option<Agent>)
      modifies this`emitted
      ensures var v := Dialogue(lx, a, t);
              && emitted == old(emitted) + (v.notes + ToolEvents(v.call, v.at, t.tool))
              && r == if v.call.Some? && !t.tool.Returns? then None else Some(v.agent)
    {
      hide NextMove, Extract, Prefixes, Classify, Newly, Assigned, After, Qualified;
      var said, node, wish := "", a.node, a.wish;
      var bag := new SlotBag(a.slots);
      if node.Greeting? {
        said := lx.say(Greet, a.locale);
        node := Intent;
      }
      said := said + Prefixes(lx, a, a.slots);
      var newly := ExtractSlots(lx, t.text, bag);
      var slots := bag.View();
      EmitAssigned(newly, node);
      var at := node;
      if wish.Unknown? {
        wish := Classify(lx, t.text, slots);
        if !wish.Unknown? {
          Emit([VarAssigned("intent", WishText(wish), node)]);
          at := Qualify;
        }
      }
      ghost var notes := Notes(newly, wish, a.wish.Unknown? && !wish.Unknown?, node);
      assert emitted == old(emitted) + notes;
      hide Notes;
      var idle := newly == [] && a.node.Qualify? && !Qualified(slots) && !a.injection && !a.priceQuestion;
      var m := NextMove(lx, a, t, at, slots, wish, idle);
      if m.call.Some? {
        var ok := CallTool(m.call.value, at, t.tool);
        if !ok {
          return None;
        }
      } else {
        assert ToolEvents(m.call, at, t.tool) == [];
      }
      return Some(After(a, t, slots, wish, m, said));
    }

    method ScheduleTurn(a: Agent, t: Turn) returns (r: Option<Agent>)
      modifies this`emitted
      ensures var v := Scheduling(lx, a, t);
              && emitted == old(emitted) + (v.notes + ToolEvents(v.call, v.at, t.tool))
              && r == if v.call.Some? && !t.tool.Returns? then None else Some(v.agent)
    {
      hide Prefixes, PickSlot;
      var said := Prefixes(lx, a, a.slots);
      var chosen := PickSlot(lx, t.text, a.proposed);
      if chosen.None? {
        return Some(a.(reply := said + lx.say(Redirect, a.locale) + lx.offer(a.proposed, a.locale)));
      }
      var attempt := a.attempts + 1;
      var ok := CallTool(Book(chosen.value.slotId, attempt), Schedule, t.tool);
      if !ok {
        return None;
      }
      return Some(a.(reply := said + lx.booked(chosen.value, a.locale), node := Confirm, attempts := attempt,
                     toolUsed := true, slots := a.slots.(preferredSlot := Some(chosen.value.slotId))));
    }

    method MessageTurn(a: Agent, t: Turn) returns (r: Option<Agent>)
      modifies this`emitted
      ensures var v := TakingMessage(lx, a, t);
              && emitted == old(emitted) + (v.notes + ToolEvents(v.call, v.at, t.tool))
              && r == if v.call.Some? && !t.tool.Returns? then None else Some(v.agent)
    {
      hide Prefixes;
      var slots := a.slots.(messageText := Some(t.text));
      var reason := if slots.inCoverage == Some(false) then "out_of_coverage" else "caller_request";
      var ok := CallTool(Take(reason, t.text), Message, t.tool);
      if !ok {
        return None;
      }
      return Some(a.(reply := Prefixes(lx, a, a.slots) + lx.say(MessageTaken, a.locale), node := Confirm,
                     toolUsed := true, slots := slots));
    }

    /** Records the tier, then streams; `None` is an exception of the stream. */
    method RespondTurn(a: Agent, t: Turn) returns (r: Option<Agent>)
      modifies this`emitted, this`tiers
      ensures tiers == old(tiers) + [(a.turn, Tier(lx, a, t))]
      ensures r.Some? <==> t.llm.Some?
      ensures if r.None? then emitted == old(emitted)
              else r.value == Respond(lx, a, t).agent && emitted == old(emitted) + Respond(lx, a, t).events
    {
      tiers := tiers + [(a.turn, Tier(lx, a, t))];
      if t.llm.None? {
        return None;
      }
      var reply := if t.llm.value == "" then a.reply else t.llm.value;
      if !lx.allowed(reply) {
        Emit([OutboundBlocked(a.node)]);
        reply := lx.say(Clarify, a.locale);
      }
      if a.node != a.prevNode {
        Emit([NodeExited(a.node, a.prevNode), NodeEntered(a.node)]);
      }
      Emit([TurnCompleted(reply, a.node)]);
      return Some(a.(reply := reply, history := a.history + [t.text, reply]));
    }

    /** The graph node of a screened turn; `None` is an exception of its tool call. */
    method VisitNode(a: Agent, t: Turn) returns (r: Option<Agent>)
      requires !Route(a).NoEdge?
      modifies this`emitted
      ensures var v := Visit(lx, a, t);
              && emitted == old(emitted) + (v.notes + ToolEvents(v.call, v.at, t.tool))
              && r == if v.call.Some? && !t.tool.Returns? then None else Some(v.agent)
    {
      hide Dialogue, Scheduling, TakingMessage;
      match Route(a) {
        case ToDialogue => r := DialogueTurn(a, t);
        case ToSchedule => r := ScheduleTurn(a, t);
        case ToMessage => r := MessageTurn(a, t);
        case ToTransfer =>
          Emit([TransferInitiated(a.node)]);
          r := Some(a.(reply := lx.say(TransferNow, a.locale), node := Done, ended := true, reasoning := true));
        case ToConfirm =>
          if lx.no(t.text) || !lx.yes(t.text) {
            r := Some(a.(reply := lx.say(Goodbye, a.locale), node := Done, ended := true));
          } else {
            r := Some(a.(reply := lx.say(Clarify, a.locale), node := Intent, wish := Unknown));
          }
      }
    }

    /** `None` is an exception: of a turn without an edge, a tool or the model. The state is then
        not replaced. */
    method HandleCallerTurn(t: Turn) returns (reply: Option<string>)
      modifies this
      ensures View() == HandleTurn(lx, old(View()), t)
      ensures reply.None? <==> Raises(lx, old(state), t)
      ensures reply.Some? ==> reply.value == state.reply
    {
      hide Screen, Visit, Respond, Fresh, ToolEvents;
      var screened := ScreenTurn(Fresh(state), t);
      if Route(screened).NoEdge? {
        return None;
      }
      var next := VisitNode(screened, t);
      if next.None? {
        return None;
      }
      var done := RespondTurn(next.value, t);
      if done.None? {
        return None;
      }
      state := done.value;
      return Some(state.reply);
    }
  }
}
