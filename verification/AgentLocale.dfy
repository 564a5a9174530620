/** The language of a call decides how the agent speaks, and nothing else: two calls with the
    same caller texts, calendar answers and failures, but any languages detected and any model
    wording, do the same. */
module AgentLocale {
  import opened Common
  import opened AgentModel

  /** Same but for the language and the words said in it. */
  ghost predicate Alike(a: Agent, b: Agent) {
    b == a.(locale := b.locale, reply := b.reply, history := b.history)
  }

  ghost predicate SameTurn(t: Turn, u: Turn) {
    t.text == u.text && t.proposal == u.proposal && t.tool == u.tool && (t.llm.Some? <==> u.llm.Some?)
  }

  /** Language events, wording and the guard on wording disappear; a transcript loses its language. */
  function EraseOne(e: Event): seq<Event> {
    match e
    case LanguageDetected(_, _) => []
    case LanguageSwitched(_, _, _) => []
    case OutboundBlocked(_) => []
    case TurnCompleted(_, _) => []
    case SttFinal(text, _, node) => [SttFinal(text, EnCa, node)]
    case _ => [e]
  }

  function Erase(events: seq<Event>): seq<Event> {
    if events == [] then [] else Erase(events[..|events| - 1]) + EraseOne(events[|events| - 1])
  }

  lemma {:induction false} EraseConcat(x: seq<Event>, y: seq<Event>)
    ensures Erase(x + y) == Erase(x) + Erase(y)
  {
    hide EraseOne;
    if y == [] {
      assert x + y == x;
    } else {
      assert (x + y)[..|x + y| - 1] == x + y[..|y| - 1];
      EraseConcat(x, y[..|y| - 1]);
    }
  }

  lemma EraseSingle(e: Event)
    ensures Erase([e]) == EraseOne(e)
  {
    assert [e][..0] == [];
  }

  lemma ScreenAlike(lx: Lexicon, a: Agent, b: Agent, t: Turn, u: Turn)
    requires Alike(a, b) && SameTurn(t, u)
    ensures Alike(Screen(lx, a, t).agent, Screen(lx, b, u).agent)
    ensures Erase(Screen(lx, a, t).events) == [SttFinal(t.text, EnCa, a.node)]
    ensures Erase(Screen(lx, b, u).events) == [SttFinal(t.text, EnCa, a.node)]
  {
    ScreenErased(lx, a, t);
    ScreenErased(lx, b, u);
  }

  lemma ScreenErased(lx: Lexicon, a: Agent, t: Turn)
    ensures Erase(Screen(lx, a, t).events) == [SttFinal(t.text, EnCa, a.node)]
  {
    var final := SttFinal(t.text, LocaleOf(a, t), a.node);
    EraseConcat(LanguageEvents(a, t), [final]);
    EraseSingle(final);
    if LanguageEvents(a, t) != [] { EraseSingle(LanguageEvents(a, t)[0]); }
    hide Erase;
    assert LanguageEvents(a, t) == [] || LanguageEvents(a, t) == [LanguageEvents(a, t)[0]];
  }

  lemma MoveAlike(lx: Lexicon, a: Agent, b: Agent, t: Turn, u: Turn, at: Node, s: Slots, wish: Wish, idle: bool)
    requires Alike(a, b) && SameTurn(t, u)
    ensures var m, n := NextMove(lx, a, t, at, s, wish, idle), NextMove(lx, b, u, at, s, wish, idle);
            n == m.(said := n.said)
  {
    hide AskWish;
  }

  lemma AfterAlike(a: Agent, b: Agent, t: Turn, u: Turn, slots: Slots, wish: Wish, m: Move, n: Move,
                   said: string, dit: string)
    requires Alike(a, b) && SameTurn(t, u) && n == m.(said := n.said)
    ensures Alike(After(a, t, slots, wish, m, said), After(b, u, slots, wish, n, dit))
  {}

  lemma AlikeFields(a: Agent, b: Agent)
    requires Alike(a, b)
    ensures a.node == b.node && a.prevNode == b.prevNode && a.wish == b.wish && a.slots == b.slots
    ensures a.injection == b.injection && a.priceQuestion == b.priceQuestion && a.emergency == b.emergency
    ensures a.proposed == b.proposed && a.attempts == b.attempts && a.turn == b.turn
    ensures a.toolUsed == b.toolUsed && a.reasoning == b.reasoning
  {}

  ghost predicate DidAlike(d: Visited, e: Visited) {
    Alike(d.agent, e.agent) && d.notes == e.notes && d.call == e.call && d.at == e.at
  }

  lemma DialogueAlike(lx: Lexicon, a: Agent, b: Agent, t: Turn, u: Turn)
    requires Alike(a, b) && SameTurn(t, u)
    ensures DidAlike(Dialogue(lx, a, t), Dialogue(lx, b, u))
  {
    hide NextMove, Extract, Prefixes, Classify, Newly, Qualified, Notes, Alike, After;
    AlikeFields(a, b);
    var slots := Extract(lx, t.text, a.slots);
    var newly := Newly(a.slots, slots);
    var wish := if a.wish.Unknown? then Classify(lx, t.text, slots) else a.wish;
    var learned := a.wish.Unknown? && !wish.Unknown?;
    var idle := newly == [] && a.node.Qualify? && !Qualified(slots) && !a.injection && !a.priceQuestion;
    var at := if learned then Qualify else if a.node.Greeting? then Intent else a.node;
    MoveAlike(lx, a, b, t, u, at, slots, wish, idle);
    var m, n := NextMove(lx, a, t, at, slots, wish, idle), NextMove(lx, b, u, at, slots, wish, idle);
    AfterAlike(a, b, t, u, slots, wish, m, n,
               (if a.node.Greeting? then lx.say(Greet, a.locale) else "") + Prefixes(lx, a, a.slots),
               (if b.node.Greeting? then lx.say(Greet, b.locale) else "") + Prefixes(lx, b, b.slots));
  }

  lemma SchedulingAlike(lx: Lexicon, a: Agent, b: Agent, t: Turn, u: Turn)
    requires Alike(a, b) && SameTurn(t, u)
    ensures DidAlike(Scheduling(lx, a, t), Scheduling(lx, b, u))
  {
    hide Prefixes, PickSlot;
    assert PickSlot(lx, t.text, a.proposed) == PickSlot(lx, u.text, b.proposed);
    if PickSlot(lx, t.text, a.proposed).None? {
    }
  }

  lemma TakingMessageAlike(lx: Lexicon, a: Agent, b: Agent, t: Turn, u: Turn)
    requires Alike(a, b) && SameTurn(t, u)
    ensures DidAlike(TakingMessage(lx, a, t), TakingMessage(lx, b, u))
  {
    hide Prefixes;
  }

  lemma ConfirmingAlike(lx: Lexicon, a: Agent, b: Agent, t: Turn, u: Turn)
    requires Alike(a, b) && SameTurn(t, u)
    ensures DidAlike(Confirming(lx, a, t), Confirming(lx, b, u))
  {
    if lx.no(t.text) || !lx.yes(t.text) {
    }
  }

  lemma TransferAlike(lx: Lexicon, a: Agent, b: Agent)
    requires Alike(a, b)
    ensures DidAlike(Transfer(lx, a), Transfer(lx, b))
  {}

  lemma VisitAlike(lx: Lexicon, a: Agent, b: Agent, t: Turn, u: Turn)
    requires Alike(a, b) && SameTurn(t, u) && !Route(a).NoEdge?
    ensures !Route(b).NoEdge? && DidAlike(Visit(lx, a, t), Visit(lx, b, u))
  {
    hide Dialogue, Scheduling, TakingMessage, Confirming, Transfer, Alike;
    AlikeFields(a, b);
    DialogueAlike(lx, a, b, t, u);
    SchedulingAlike(lx, a, b, t, u);
    TakingMessageAlike(lx, a, b, t, u);
    ConfirmingAlike(lx, a, b, t, u);
    TransferAlike(lx, a, b);
  }

  function Moved(a: Agent): seq<Event> {
    if a.node != a.prevNode then [NodeExited(a.node, a.prevNode), NodeEntered(a.node)] else []
  }

  lemma RespondErased(lx: Lexicon, a: Agent, t: Turn)
    requires t.llm.Some?
    ensures Erase(Respond(lx, a, t).events) == Moved(a)
  {
    var r := Respond(lx, a, t);
    var streamed := if t.llm.value == "" then a.reply else t.llm.value;
    var guard := if !lx.allowed(streamed) then [OutboundBlocked(a.node)] else [];
    assert r.events == guard + Moved(a) + [TurnCompleted(r.agent.reply, a.node)];
    hide Respond;
    FrameErased(guard, Moved(a), TurnCompleted(r.agent.reply, a.node));
    EraseMoved(a);
  }

  lemma FrameErased(guard: seq<Event>, moved: seq<Event>, last: Event)
    requires guard == [] || (|guard| == 1 && guard[0].OutboundBlocked?)
    requires last.TurnCompleted?
    ensures Erase(guard + moved + [last]) == Erase(moved)
  {
    EraseConcat(guard + moved, [last]);
    EraseConcat(guard, moved);
    EraseSingle(last);
    GuardErased(guard);
    hide Erase;
  }

  lemma GuardErased(guard: seq<Event>)
    requires guard == [] || (|guard| == 1 && guard[0].OutboundBlocked?)
    ensures Erase(guard) == []
  {
    if guard != [] {
      EraseSingle(guard[0]);
      hide Erase;
      assert guard == [guard[0]];
    }
  }

  lemma EraseMoved(a: Agent)
    ensures Erase(Moved(a)) == Moved(a)
  {
    if a.node != a.prevNode {
      ErasePair(NodeExited(a.node, a.prevNode), NodeEntered(a.node));
    }
  }

  lemma ErasePair(x: Event, y: Event)
    ensures Erase([x, y]) == EraseOne(x) + EraseOne(y)
  {
    hide EraseOne;
    assert [x, y] == [x] + [y];
    EraseConcat([x], [y]);
    EraseSingle(x);
    EraseSingle(y);
  }

  ghost predicate SameCall(c: Call, d: Call) {
    Alike(c.agent, d.agent) && Erase(c.events) == Erase(d.events) && c.tiers == d.tiers
  }

  lemma TurnAlike(lx: Lexicon, c: Call, d: Call, t: Turn, u: Turn)
    requires SameCall(c, d) && SameTurn(t, u)
    ensures SameCall(HandleTurn(lx, c, t), HandleTurn(lx, d, u))
    ensures Raises(lx, c.agent, t) <==> Raises(lx, d.agent, u)
  {
    hide Visit, Respond, Screen, Erase, Route, Alike, Fresh, ToolEvents, Tier;
    var a, b := Fresh(c.agent), Fresh(d.agent);
    FreshAlike(c.agent, d.agent);
    ScreenAlike(lx, a, b, t, u);
    var sa, sb := Screen(lx, a, t), Screen(lx, b, u);
    RouteAlike(sa.agent, sb.agent);
    AlikeFields(a, b);
    EraseConcat(c.events, sa.events);
    EraseConcat(d.events, sb.events);
    if !Route(sa.agent).NoEdge? {
      VisitAlike(lx, sa.agent, sb.agent, t, u);
      var va, vb := Visit(lx, sa.agent, t), Visit(lx, sb.agent, u);
      var did := va.notes + ToolEvents(va.call, va.at, t.tool);
      EraseConcat(c.events + sa.events, did);
      EraseConcat(d.events + sb.events, did);
      TierAlike(lx, va.agent, vb.agent, t, u);
      AlikeFields(va.agent, vb.agent);
      if t.llm.Some? {
        RespondAlike(lx, va.agent, vb.agent, t, u);
        EraseConcat(c.events + sa.events + did, Respond(lx, va.agent, t).events);
        EraseConcat(d.events + sb.events + did, Respond(lx, vb.agent, u).events);
      }
    }
  }

  lemma TierAlike(lx: Lexicon, a: Agent, b: Agent, t: Turn, u: Turn)
    requires Alike(a, b) && SameTurn(t, u)
    ensures Tier(lx, a, t) == Tier(lx, b, u)
  {}

  lemma FreshAlike(a: Agent, b: Agent)
    requires Alike(a, b)
    ensures Alike(Fresh(a), Fresh(b))
  {}

  lemma RouteAlike(a: Agent, b: Agent)
    requires Alike(a, b)
    ensures Route(a) == Route(b)
  {}

  lemma RespondAlike(lx: Lexicon, a: Agent, b: Agent, t: Turn, u: Turn)
    requires Alike(a, b) && SameTurn(t, u) && t.llm.Some?
    ensures Alike(Respond(lx, a, t).agent, Respond(lx, b, u).agent)
    ensures Erase(Respond(lx, a, t).events) == Erase(Respond(lx, b, u).events)
  {
    RespondErased(lx, a, t);
    RespondErased(lx, b, u);
    hide Erase;
  }

  /** Locale non-interference over every conversation: with the same caller texts, calendar
      answers and failures, whatever language each turn is taken for, whatever the default language and the
      model's words, both calls visit the same nodes, collect the same slots and wish, route to
      the same model tier, and emit the same tool calls, variables, transfers and node changes. */
  lemma {:induction false} LocaleDecidesOnlyWording(lx: Lexicon, l: Locale, k: Locale, ts: seq<Turn>, us: seq<Turn>)
    requires |ts| == |us| && forall i :: 0 <= i < |ts| ==> SameTurn(ts[i], us[i])
    ensures SameCall(Run(lx, l, ts), Run(lx, k, us))
  {
    if ts != [] {
      LocaleDecidesOnlyWording(lx, l, k, ts[..|ts| - 1], us[..|us| - 1]);
      hide SameCall, HandleTurn;
      TurnAlike(lx, Run(lx, l, ts[..|ts| - 1]), Run(lx, k, us[..|us| - 1]), ts[|ts| - 1], us[|us| - 1]);
    }
  }
}
