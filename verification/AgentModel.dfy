/** The dialogue policy of one call, turn by turn. Word lists, patterns, tenant settings and
    wording are functions of a Lexicon; language decisions, what becomes of a tool call and LLM
    output are inputs of each turn. */
module AgentModel {
  import opened Common

  datatype Locale = EnCa | FrCa

  datatype Node = Greeting | Intent | Qualify | Schedule | Message | Confirm | Done

  datatype Wish = Unknown | WantsSchedule | WantsMessage

  datatype Urgency = Normal | High

  datatype CalendarSlot = CalendarSlot(slotId: string, labelEn: string, labelFr: string)

  datatype Slots = Slots(service: Option<string>, postalCode: Option<string>, inCoverage: Option<bool>,
                         urgency: Option<Urgency>, preferredSlot: Option<string>, messageText: Option<string>)

  datatype Phrase =
    | Greet | AskIntent | Clarify | AskService | AskPostal | AskUrgency | OutOfCoverage | AskMessage
    | MessageTaken | Goodbye | TransferNow | Redirect | NoDiscount

  datatype Lexicon = Lexicon(
    emergency: string -> bool, injection: string -> bool, priceQuestion: string -> bool,
    service: string -> Option<string>, postal: string -> Option<string>, covers: string -> bool,
    urgency: string -> Option<Urgency>, asksMessage: string -> bool, asksSchedule: string -> bool,
    yes: string -> bool, no: string -> bool, first: string -> bool, second: string -> bool,
    longTurn: string -> bool, allowed: string -> bool,
    say: (Phrase, Locale) -> string, priceAnswer: (Option<string>, Locale) -> string,
    offer: (seq<CalendarSlot>, Locale) -> string, booked: (CalendarSlot, Locale) -> string)

  datatype ToolCall =
    | Propose(service: string, urgency: Urgency)
    | Book(slotId: string, attempt: nat)
    | Take(reason: string, text: string)

  datatype Event =
    | LanguageDetected(locale: Locale, node: Node)
    | LanguageSwitched(from: Locale, to: Locale, node: Node)
    | SttFinal(text: string, locale: Locale, node: Node)
    | VarAssigned(name: string, value: string, node: Node)
    | ToolInvoked(call: ToolCall, node: Node)
    | ToolCompleted(call: ToolCall, node: Node)
    | TransferInitiated(node: Node)
    | OutboundBlocked(node: Node)
    | NodeExited(outcome: Node, node: Node)
    | NodeEntered(node: Node)
    | TurnCompleted(text: string, node: Node)

  datatype Agent = Agent(turn: nat, locale: Locale, node: Node, prevNode: Node, wish: Wish, slots: Slots,
                         proposed: seq<CalendarSlot>, attempts: nat, toolUsed: bool, reasoning: bool,
                         injection: bool, priceQuestion: bool, emergency: bool, ended: bool,
                         reply: string, history: seq<string>)

  const NO_SLOTS := Slots(None, None, None, None, None, None)

  function NewAgent(locale: Locale): Agent {
    Agent(0, locale, Greeting, Greeting, Unknown, NO_SLOTS, [], 0, false, false, false, false, false, false, "", [])
  }

  /** What becomes of a tool call: it returns, or raises before or after taking effect. */
  datatype Outcome = Returns | RaisesUndone | RaisesDone

  /** `detected` answers on the first turn, `switched` later; `proposal` is what the calendar
      would answer, `llm` what the model streams, if its stream does not raise. */
  datatype Turn = Turn(text: string, detected: Locale, switched: Option<Locale>, proposal: seq<CalendarSlot>,
                       tool: Outcome, llm: Option<string>)

  /** The part of a call's state that outlives a turn, with every event and routing decision. */
  datatype Call = Call(agent: Agent, events: seq<Event>, tiers: seq<(nat, bool)>)

  function NewCall(locale: Locale): Call { Call(NewAgent(locale), [], []) }

  /** What a graph node does: the updated state and the events it emits. */
  datatype Did = Did(agent: Agent, events: seq<Event>)

  /** The same for a node that may call a tool, after its notes and as node `at`. */
  datatype Visited = Visited(agent: Agent, notes: seq<Event>, call: Option<ToolCall>, at: Node)

  // --- screen and route

  function LocaleOf(a: Agent, t: Turn): Locale {
    if a.turn == 1 then t.detected else t.switched.UnwrapOr(a.locale)
  }

  function LanguageEvents(a: Agent, t: Turn): seq<Event> {
    if a.turn == 1 then [LanguageDetected(t.detected, a.node)]
    else if t.switched.Some? then [LanguageSwitched(a.locale, t.switched.value, a.node)]
    else []
  }

  function Screen(lx: Lexicon, a: Agent, t: Turn): Did {
    var locale := LocaleOf(a, t);
    Did(a.(prevNode := a.node, locale := locale, emergency := lx.emergency(t.text), injection := lx.injection(t.text),
           priceQuestion := lx.priceQuestion(t.text),
           reasoning := a.reasoning || lx.injection(t.text) || lx.emergency(t.text)),
        LanguageEvents(a, t) + [SttFinal(t.text, locale, a.node)])
  }

  datatype Target = ToTransfer | ToDialogue | ToSchedule | ToMessage | ToConfirm | NoEdge

  /** The graph has no edge for a finished conversation. */
  function Route(a: Agent): Target {
    if a.emergency then ToTransfer
    else
      match a.node
      case Greeting | Intent | Qualify => ToDialogue
      case Schedule => ToSchedule
      case Message => ToMessage
      case Confirm => ToConfirm
      case Done => NoEdge
  }

  function Transfer(lx: Lexicon, a: Agent): Visited {
    Visited(a.(reply := lx.say(TransferNow, a.locale), node := Done, ended := true, reasoning := true),
            [TransferInitiated(a.node)], None, a.node)
  }

  // --- dialogue

  function Prefixes(lx: Lexicon, a: Agent, slots: Slots): string {
    (if a.injection then lx.say(NoDiscount, a.locale) else "")
    + (if a.priceQuestion && !a.injection then lx.priceAnswer(slots.service, a.locale) + " " else "")
  }

  /** Only empty slots are filled. */
  function Extract(lx: Lexicon, text: string, s: Slots): Slots {
    var s1 := if s.service.None? then s.(service := lx.service(text)) else s;
    var s2 := if s1.postalCode.None? && lx.postal(text).Some?
              then s1.(postalCode := lx.postal(text), inCoverage := Some(lx.covers(lx.postal(text).value))) else s1;
    if s2.urgency.None? then s2.(urgency := lx.urgency(text)) else s2
  }

  function BoolText(b: bool): string { if b then "true" else "false" }

  function UrgencyText(u: Urgency): string { if u.High? then "high" else "normal" }

  /** The newly found slots, by name and value. */
  function Newly(before: Slots, after: Slots): seq<(string, string)> {
    (if before.service.None? && after.service.Some? then [("service", after.service.value)] else [])
    + (if before.postalCode.None? && after.postalCode.Some? && after.inCoverage.Some?
       then [("postal_code", after.postalCode.value), ("in_coverage", BoolText(after.inCoverage.value))] else [])
    + (if before.urgency.None? && after.urgency.Some? then [("urgency", UrgencyText(after.urgency.value))] else [])
  }

  function Assigned(newly: seq<(string, string)>, node: Node): seq<Event> {
    if newly == [] then [] else [VarAssigned(newly[0].0, newly[0].1, node)] + Assigned(newly[1..], node)
  }

  function Classify(lx: Lexicon, text: string, slots: Slots): Wish {
    if lx.asksMessage(text) then WantsMessage
    else if lx.asksSchedule(text) || slots.service.Some? then WantsSchedule
    else Unknown
  }

  function WishText(w: Wish): string {
    match w
    case Unknown => "unknown"
    case WantsSchedule => "schedule"
    case WantsMessage => "message"
  }

  predicate Qualified(s: Slots) { s.service.Some? && s.postalCode.Some? && s.urgency.Some? }

  /** The question for a caller whose wish is still unknown. */
  function AskWish(lx: Lexicon, a: Agent, text: string, slots: Slots): string {
    var offTopic := a.injection || a.priceQuestion
                    || (slots.service.None? && slots.postalCode.None? && Classify(lx, text, slots).Unknown?);
    if offTopic then lx.say(Redirect, a.locale) + lx.say(Clarify, a.locale)
    else lx.say(if a.turn == 1 then AskIntent else Clarify, a.locale)
  }

  /** Where the dialogue goes next, what it adds to the reply and what it asks of the calendar. */
  datatype Move = Move(node: Node, said: string, call: Option<ToolCall>, reasoning: bool)

  function Ask(node: Node, said: string): Move { Move(node, said, None, false) }

  /** The qualification ladder: service, postal code, coverage, urgency, then the calendar. */
  function Ladder(lx: Lexicon, locale: Locale, proposal: seq<CalendarSlot>, slots: Slots): Move {
    if slots.service.None? then Ask(Qualify, lx.say(AskService, locale))
    else if slots.postalCode.None? then Ask(Qualify, lx.say(AskPostal, locale))
    else if slots.inCoverage == Some(false) then Ask(Message, lx.say(OutOfCoverage, locale)).(reasoning := true)
    else if slots.urgency.None? then Ask(Qualify, lx.say(AskUrgency, locale))
    else Move(Schedule, lx.offer(proposal, locale), Some(Propose(slots.service.value, slots.urgency.value)), false)
  }

  /** The next question, by the caller's wish. */
  function NextMove(lx: Lexicon, a: Agent, t: Turn, at: Node, slots: Slots, wish: Wish, idle: bool): Move {
    match wish
    case Unknown => Ask(at, AskWish(lx, a, t.text, slots))
    case WantsMessage => Ask(Message, lx.say(AskMessage, a.locale))
    case WantsSchedule =>
      var m := Ladder(lx, a.locale, t.proposal, slots);
      m.(said := (if idle then lx.say(Redirect, a.locale) else "") + m.said)
  }

  function Dialogue(lx: Lexicon, a: Agent, t: Turn): Visited {
    var greeting := if a.node.Greeting? then lx.say(Greet, a.locale) else "";
    var node := if a.node.Greeting? then Intent else a.node;
    var slots := Extract(lx, t.text, a.slots);
    var newly := Newly(a.slots, slots);
    var wish := if a.wish.Unknown? then Classify(lx, t.text, slots) else a.wish;
    var learned := a.wish.Unknown? && !wish.Unknown?;
    var idle := newly == [] && a.node.Qualify? && !Qualified(slots) && !a.injection && !a.priceQuestion;
    var at := if learned then Qualify else node;
    var m := NextMove(lx, a, t, at, slots, wish, idle);
    Visited(After(a, t, slots, wish, m, greeting + Prefixes(lx, a, a.slots)),
            Notes(newly, wish, learned, node), m.call, at)
  }

  /** The updates of a dialogue turn. */
  function After(a: Agent, t: Turn, slots: Slots, wish: Wish, m: Move, said: string): Agent {
    a.(slots := slots, wish := wish, node := m.node, reply := said + m.said,
       proposed := if m.call.Some? then t.proposal else a.proposed, toolUsed := a.toolUsed || m.call.Some?,
       reasoning := a.reasoning || m.reasoning)
  }

  /** The variables a dialogue turn announces. */
  function Notes(newly: seq<(string, string)>, wish: Wish, learned: bool, node: Node): seq<Event> {
    Assigned(newly, node) + if learned then [VarAssigned("intent", WishText(wish), node)] else []
  }

  // --- booking, message, wrap-up

  function PickSlot(lx: Lexicon, text: string, proposed: seq<CalendarSlot>): Option<CalendarSlot> {
    if proposed == [] then None
    else if |proposed| > 1 && lx.second(text) then Some(proposed[1])
    else if lx.first(text) || lx.yes(text) then Some(proposed[0])
    else None
  }

  function Scheduling(lx: Lexicon, a: Agent, t: Turn): Visited {
    var chosen := PickSlot(lx, t.text, a.proposed);
    var said := Prefixes(lx, a, a.slots);
    if chosen.None? then
      Visited(a.(reply := said + lx.say(Redirect, a.locale) + lx.offer(a.proposed, a.locale)), [], None, Schedule)
    else
      Visited(a.(reply := said + lx.booked(chosen.value, a.locale), node := Confirm, attempts := a.attempts + 1,
                 toolUsed := true, slots := a.slots.(preferredSlot := Some(chosen.value.slotId))),
              [], Some(Book(chosen.value.slotId, a.attempts + 1)), Schedule)
  }

  function TakingMessage(lx: Lexicon, a: Agent, t: Turn): Visited {
    var reason := if a.slots.inCoverage == Some(false) then "out_of_coverage" else "caller_request";
    Visited(a.(reply := Prefixes(lx, a, a.slots) + lx.say(MessageTaken, a.locale), node := Confirm, toolUsed := true,
               slots := a.slots.(messageText := Some(t.text))),
            [], Some(Take(reason, t.text)), Message)
  }

  function Confirming(lx: Lexicon, a: Agent, t: Turn): Visited {
    if lx.no(t.text) || !lx.yes(t.text)
    then Visited(a.(reply := lx.say(Goodbye, a.locale), node := Done, ended := true), [], None, Confirm)
    else Visited(a.(reply := lx.say(Clarify, a.locale), node := Intent, wish := Unknown), [], None, Confirm)
  }

  /** The graph node a screened turn runs. */
  function Visit(lx: Lexicon, a: Agent, t: Turn): Visited
    requires !Route(a).NoEdge?
  {
    match Route(a)
    case ToTransfer => Transfer(lx, a)
    case ToDialogue => Dialogue(lx, a, t)
    case ToSchedule => Scheduling(lx, a, t)
    case ToMessage => TakingMessage(lx, a, t)
    case ToConfirm => Confirming(lx, a, t)
  }

  // --- respond

  /** Whether a turn goes to the reasoning tier. */
  function Tier(lx: Lexicon, a: Agent, t: Turn): bool { a.toolUsed || a.reasoning || lx.longTurn(t.text) }

  function Respond(lx: Lexicon, a: Agent, t: Turn): Did
    requires t.llm.Some?
  {
    var streamed := if t.llm.value == "" then a.reply else t.llm.value;
    var blocked := !lx.allowed(streamed);
    var reply := if blocked then lx.say(Clarify, a.locale) else streamed;
    Did(a.(reply := reply, history := a.history + [t.text, reply]),
        (if blocked then [OutboundBlocked(a.node)] else [])
        + (if a.node != a.prevNode then [NodeExited(a.node, a.prevNode), NodeEntered(a.node)] else [])
        + [TurnCompleted(reply, a.node)])
  }

  // --- one turn, every turn

  function Fresh(a: Agent): Agent {
    a.(turn := a.turn + 1, reply := "", toolUsed := false, reasoning := false)
  }

  /** A tool call is announced before it is made, and reported when it returns. */
  function ToolEvents(call: Option<ToolCall>, at: Node, tool: Outcome): seq<Event> {
    if call.None? then []
    else if tool.Returns? then [ToolInvoked(call.value, at), ToolCompleted(call.value, at)]
    else [ToolInvoked(call.value, at)]
  }

  /** The tool call of a turn, if it makes one. */
  function TurnCall(lx: Lexicon, a: Agent, t: Turn): Option<ToolCall> {
    var s := Screen(lx, Fresh(a), t).agent;
    if Route(s).NoEdge? then None else Visit(lx, s, t).call
  }

  /** A turn raises without an edge, and when its tool call or the model's stream raises. */
  predicate Raises(lx: Lexicon, a: Agent, t: Turn) {
    || Route(Screen(lx, Fresh(a), t).agent).NoEdge?
    || (TurnCall(lx, a, t).Some? && !t.tool.Returns?)
    || t.llm.None?
  }

  /** A turn that raises does not replace the state, but what it emitted stays in the emitter,
      and a routing decision already taken stays too. */
  function HandleTurn(lx: Lexicon, c: Call, t: Turn): Call {
    var s := Screen(lx, Fresh(c.agent), t);
    if Route(s.agent).NoEdge? then c.(events := c.events + s.events)
    else
      var v := Visit(lx, s.agent, t);
      var emitted := c.events + s.events + (v.notes + ToolEvents(v.call, v.at, t.tool));
      if v.call.Some? && !t.tool.Returns? then c.(events := emitted)
      else
        var tiers := c.tiers + [(v.agent.turn, Tier(lx, v.agent, t))];
        if t.llm.None? then c.(events := emitted, tiers := tiers)
        else
          var r := Respond(lx, v.agent, t);
          Call(r.agent, emitted + r.events, tiers)
  }

  function Run(lx: Lexicon, locale: Locale, ts: seq<Turn>): Call {
    if ts == [] then NewCall(locale) else HandleTurn(lx, Run(lx, locale, ts[..|ts| - 1]), ts[|ts| - 1])
  }
}
