/** The tool calls of a conversation and their idempotency keys, when tools and model may raise. */
module AgentTools {
  import opened Common
  import opened AgentModel
  import opened AgentSafety

  // --- which turn calls what

  /** The tool calls announced, in order. */
  function Invoked(events: seq<Event>): seq<ToolCall> {
    if events == [] then []
    else
      var e := events[|events| - 1];
      Invoked(events[..|events| - 1]) + if e.ToolInvoked? then [e.call] else []
  }

  lemma {:induction false} InvokedConcat(x: seq<Event>, y: seq<Event>)
    ensures Invoked(x + y) == Invoked(x) + Invoked(y)
  {
    if y == [] {
      assert x + y == x;
    } else {
      assert (x + y)[..|x + y| - 1] == x + y[..|y| - 1];
      InvokedConcat(x, y[..|y| - 1]);
    }
  }

  lemma {:induction false} NothingInvoked(x: seq<Event>)
    requires forall e :: e in x ==> !e.ToolInvoked?
    ensures Invoked(x) == []
  {
    if x != [] {
      assert x[|x| - 1] in x;
      NothingInvoked(x[..|x| - 1]);
    }
  }

  function AsSeq(call: Option<ToolCall>): seq<ToolCall> { if call.Some? then [call.value] else [] }

  lemma ToolEventsInvoke(call: Option<ToolCall>, at: Node, tool: Outcome)
    ensures Invoked(ToolEvents(call, at, tool)) == AsSeq(call)
  {
    if call.Some? {
      var e, f := ToolInvoked(call.value, at), ToolCompleted(call.value, at);
      assert [e][..0] == [] && [e, f][..1] == [e];
      assert Invoked([e]) == [] + [call.value];
      assert Invoked([e, f]) == Invoked([e]) + [];
    }
  }

  lemma VisitNotesInvokeNothing(lx: Lexicon, a: Agent, t: Turn)
    requires !Route(a).NoEdge?
    ensures Invoked(Visit(lx, a, t).notes) == []
  {
    var v := Visit(lx, a, t);
    forall e | e in v.notes ensures !e.ToolInvoked? {
      if Route(a).ToDialogue? { DialogueNotes(lx, a, t); }
    }
    NothingInvoked(v.notes);
  }

  lemma {:induction false} AssignedAreVars(newly: seq<(string, string)>, node: Node)
    ensures forall e :: e in Assigned(newly, node) ==> e.VarAssigned?
  {
    if newly != [] { AssignedAreVars(newly[1..], node); }
  }

  lemma DialogueNotes(lx: Lexicon, a: Agent, t: Turn)
    ensures forall e :: e in Dialogue(lx, a, t).notes ==> e.VarAssigned?
  {
    hide Extract, Newly, Classify, NextMove, Assigned, After;
    var slots := Extract(lx, t.text, a.slots);
    AssignedAreVars(Newly(a.slots, slots), if a.node.Greeting? then Intent else a.node);
  }

  lemma OnlyToolInvokes(e: seq<Event>, s: seq<Event>, notes: seq<Event>, tool: seq<Event>, said: seq<Event>)
    requires Invoked(s) == [] && Invoked(notes) == [] && Invoked(said) == []
    ensures Invoked(e + s) == Invoked(e)
    ensures Invoked(e + s + (notes + tool)) == Invoked(e) + Invoked(tool)
    ensures Invoked(e + s + (notes + tool) + said) == Invoked(e) + Invoked(tool)
  {
    InvokedConcat(e, s);
    InvokedConcat(notes, tool);
    InvokedConcat(e + s, notes + tool);
    InvokedConcat(e + s + (notes + tool), said);
    hide Invoked;
  }

  /** The call a turn makes is the one it announces, whether or not the turn raises. */
  lemma TurnInvokes(lx: Lexicon, c: Call, t: Turn)
    ensures Invoked(HandleTurn(lx, c, t).events) == Invoked(c.events) + AsSeq(TurnCall(lx, c.agent, t))
  {
    var s := Screen(lx, Fresh(c.agent), t);
    ScreensWithoutTools(lx, Fresh(c.agent), t);
    NothingInvoked(s.events);
    hide Invoked, Screen, Visit, Respond, ToolEvents, Fresh, Route, Tier;
    if Route(s.agent).NoEdge? {
      assert Invoked([]) == [] by { NothingInvoked([]); }
      OnlyToolInvokes(c.events, s.events, [], [], []);
    } else {
      var v := Visit(lx, s.agent, t);
      VisitNotesInvokeNothing(lx, s.agent, t);
      ToolEventsInvoke(v.call, v.at, t.tool);
      var said := if t.llm.Some? then Respond(lx, v.agent, t).events else [];
      if t.llm.Some? { RespondsWithoutTools(lx, v.agent, t); }
      NothingInvoked(said);
      OnlyToolInvokes(c.events, s.events, v.notes, ToolEvents(v.call, v.at, t.tool), said);
    }
  }

  // --- the state in which turn `i` of a run begins, and what it calls

  function Before(lx: Lexicon, locale: Locale, ts: seq<Turn>, i: nat): Agent
    requires i < |ts|
  {
    Run(lx, locale, ts[..i]).agent
  }

  function CallAt(lx: Lexicon, locale: Locale, ts: seq<Turn>, i: nat): Option<ToolCall>
    requires i < |ts|
  {
    TurnCall(lx, Before(lx, locale, ts, i), ts[i])
  }

  predicate RaisesAt(lx: Lexicon, locale: Locale, ts: seq<Turn>, i: nat)
    requires i < |ts|
  {
    Raises(lx, Before(lx, locale, ts, i), ts[i])
  }

  predicate BooksAt(lx: Lexicon, locale: Locale, ts: seq<Turn>, i: nat)
    requires i < |ts|
  {
    CallAt(lx, locale, ts, i).Some? && CallAt(lx, locale, ts, i).value.Book?
  }

  function CallsOf(lx: Lexicon, locale: Locale, ts: seq<Turn>, n: nat): seq<ToolCall>
    requires n <= |ts|
  {
    if n == 0 then [] else CallsOf(lx, locale, ts, n - 1) + AsSeq(CallAt(lx, locale, ts, n - 1))
  }

  lemma RunNext(lx: Lexicon, locale: Locale, ts: seq<Turn>, i: nat)
    requires i < |ts|
    ensures Run(lx, locale, ts[..i + 1]) == HandleTurn(lx, Run(lx, locale, ts[..i]), ts[i])
  {
    hide HandleTurn;
    assert ts[..i + 1][..i] == ts[..i];
  }

  lemma NextInvokes(lx: Lexicon, locale: Locale, ts: seq<Turn>, i: nat)
    requires i < |ts|
    ensures Invoked(Run(lx, locale, ts[..i + 1]).events)
         == Invoked(Run(lx, locale, ts[..i]).events) + AsSeq(CallAt(lx, locale, ts, i))
  {
    hide Invoked, Run, HandleTurn, TurnCall, AsSeq;
    RunNext(lx, locale, ts, i);
    TurnInvokes(lx, Run(lx, locale, ts[..i]), ts[i]);
  }

  /** The calls announced over a run are those its turns make, one by one. */
  lemma {:induction false} RunInvokes(lx: Lexicon, locale: Locale, ts: seq<Turn>, n: nat)
    requires n <= |ts|
    ensures Invoked(Run(lx, locale, ts[..n]).events) == CallsOf(lx, locale, ts, n)
  {
    hide Invoked, Run, CallAt, AsSeq;
    if n == 0 {
      NoTurnsInvoke(lx, locale);
      assert ts[..n] == [];
    } else {
      RunInvokes(lx, locale, ts, n - 1);
      NextInvokes(lx, locale, ts, n - 1);
    }
  }

  lemma NoTurnsInvoke(lx: Lexicon, locale: Locale)
    ensures Invoked(Run(lx, locale, []).events) == []
  {
    hide HandleTurn;
  }

  // --- idempotency keys

  function Decimal(n: nat): (s: string)
    ensures s != "" && forall c :: c in s ==> '0' <= c <= '9'
  {
    var d := ['0' + (n % 10) as char];
    if n < 10 then d else Decimal(n / 10) + d
  }

  lemma {:induction false} DecimalInjective(m: nat, n: nat)
    requires Decimal(m) == Decimal(n)
    ensures m == n
  {
    var (x, y) := (Decimal(m), Decimal(n));
    assert x[|x| - 1] == '0' + (m % 10) as char && y[|y| - 1] == '0' + (n % 10) as char;
    if m >= 10 && n >= 10 {
      assert x[..|x| - 1] == Decimal(m / 10) && y[..|y| - 1] == Decimal(n / 10);
      DecimalInjective(m / 10, n / 10);
    }
  }

  function BookKey(callId: string, attempt: nat): string { callId + ":schedule:" + Decimal(attempt) }

  function TakeKey(callId: string): string { callId + ":message:1" }

  lemma BookKeysDiffer(callId: string, m: nat, n: nat)
    requires m != n
    ensures BookKey(callId, m) != BookKey(callId, n)
  {
    var p := callId + ":schedule:";
    if BookKey(callId, m) == BookKey(callId, n) {
      assert BookKey(callId, m)[|p|..] == Decimal(m) && BookKey(callId, n)[|p|..] == Decimal(n);
      DecimalInjective(m, n);
    }
  }

  lemma KindsDiffer(callId: string, m: nat)
    ensures BookKey(callId, m) != TakeKey(callId)
  {
    assert BookKey(callId, m)[|callId| + 1] == 's' && TakeKey(callId)[|callId| + 1] == 'm';
  }

  /** The key a call is made under; asking for proposals has none. */
  function KeyOf(callId: string, call: ToolCall): Option<string> {
    match call
    case Propose(_, _) => None
    case Book(_, attempt) => Some(BookKey(callId, attempt))
    case Take(_, _) => Some(TakeKey(callId))
  }

  // --- attempts

  /** The bookings that completed in the turns from `i` on, before turn `n`. */
  function CompletedBookings(lx: Lexicon, locale: Locale, ts: seq<Turn>, i: nat, n: nat): nat
    requires i <= n <= |ts|
  {
    if i == n then 0
    else
      CompletedBookings(lx, locale, ts, i, n - 1)
      + if BooksAt(lx, locale, ts, n - 1) && !RaisesAt(lx, locale, ts, n - 1) then 1 else 0
  }

  lemma TurnAttempts(lx: Lexicon, c: Call, t: Turn)
    ensures var call := TurnCall(lx, c.agent, t);
            && (call.Some? && call.value.Book? ==> call.value.attempt == c.agent.attempts + 1)
            && HandleTurn(lx, c, t).agent.attempts
               == c.agent.attempts + if call.Some? && call.value.Book? && !Raises(lx, c.agent, t) then 1 else 0
  {
    TurnAgent(lx, c, t);
    var s := Screen(lx, Fresh(c.agent), t).agent;
    assert s.attempts == c.agent.attempts;
    hide HandleTurn, Raises, Screen, Fresh;
    if !Route(s).NoEdge? { VisitAttempts(lx, s, t); }
    hide Visit, Route;
  }

  lemma VisitAttempts(lx: Lexicon, s: Agent, t: Turn)
    requires !Route(s).NoEdge?
    ensures var v := Visit(lx, s, t);
            && (v.call.Some? && v.call.value.Book? ==> v.call.value.attempt == s.attempts + 1)
            && v.agent.attempts == s.attempts + if v.call.Some? && v.call.value.Book? then 1 else 0
  {
    hide Dialogue, Scheduling, TakingMessage, Extract;
    match Route(s)
    case ToDialogue => DialogueBooksNothing(lx, s, t);
    case ToSchedule => SchedulingAttempts(lx, s, t);
    case ToMessage => MessageAttempts(lx, s, t);
    case _ =>
  }

  lemma SchedulingAttempts(lx: Lexicon, s: Agent, t: Turn)
    ensures var v := Scheduling(lx, s, t);
            && (v.call.Some? ==> v.call.value.Book? && v.call.value.attempt == s.attempts + 1)
            && v.agent.attempts == s.attempts + if v.call.Some? then 1 else 0
  {
    hide Prefixes, PickSlot;
  }

  lemma MessageAttempts(lx: Lexicon, s: Agent, t: Turn)
    ensures var v := TakingMessage(lx, s, t);
            v.agent.attempts == s.attempts && v.call.Some? && v.call.value.Take? && v.call.value.text == t.text
  {
    hide Prefixes;
  }

  /** A booking is requested under one more than the bookings completed before it. */
  lemma {:induction false} AttemptsCountCompleted(lx: Lexicon, locale: Locale, ts: seq<Turn>, i: nat, n: nat)
    requires i <= n <= |ts|
    ensures Run(lx, locale, ts[..n]).agent.attempts
         == Run(lx, locale, ts[..i]).agent.attempts + CompletedBookings(lx, locale, ts, i, n)
    decreases n
  {
    hide HandleTurn, TurnCall, Raises;
    if i < n {
      AttemptsCountCompleted(lx, locale, ts, i, n - 1);
      RunNext(lx, locale, ts, n - 1);
      TurnAttempts(lx, Run(lx, locale, ts[..n - 1]), ts[n - 1]);
    }
  }

  lemma {:induction false} NoneCompletedIff(lx: Lexicon, locale: Locale, ts: seq<Turn>, i: nat, n: nat)
    requires i <= n <= |ts|
    ensures CompletedBookings(lx, locale, ts, i, n) == 0
       <==> forall k :: i <= k < n && BooksAt(lx, locale, ts, k) ==> RaisesAt(lx, locale, ts, k)
    decreases n
  {
    hide BooksAt, RaisesAt;
    if i < n { NoneCompletedIff(lx, locale, ts, i, n - 1); }
  }

  /** Two bookings of a call share their key exactly when every booking turn from the first up to
      the second raised. */
  lemma KeyRepeatsIffAllRaised(lx: Lexicon, locale: Locale, ts: seq<Turn>, callId: string, i: nat, j: nat)
    requires i < j < |ts| && BooksAt(lx, locale, ts, i) && BooksAt(lx, locale, ts, j)
    ensures KeyOf(callId, CallAt(lx, locale, ts, i).value) == KeyOf(callId, CallAt(lx, locale, ts, j).value)
       <==> forall k :: i <= k < j && BooksAt(lx, locale, ts, k) ==> RaisesAt(lx, locale, ts, k)
  {
    AttemptsCountCompleted(lx, locale, ts, i, j);
    NoneCompletedIff(lx, locale, ts, i, j);
    TurnAttempts(lx, Run(lx, locale, ts[..i]), ts[i]);
    TurnAttempts(lx, Run(lx, locale, ts[..j]), ts[j]);
    var m, n := CallAt(lx, locale, ts, i).value.attempt, CallAt(lx, locale, ts, j).value.attempt;
    if m != n { BookKeysDiffer(callId, m, n); }
    hide Run, TurnCall, RaisesAt, BookKey, CompletedBookings;
  }

  // --- what the tools hold

  /** A call that took effect under a key, with what it asked to keep. */
  function Effect(lx: Lexicon, locale: Locale, ts: seq<Turn>, callId: string, i: nat): Option<(string, string)>
    requires i < |ts|
  {
    var call := CallAt(lx, locale, ts, i);
    if call.None? || ts[i].tool.RaisesUndone? then None
    else
      match call.value
      case Propose(_, _) => None
      case Book(slotId, attempt) => Some((BookKey(callId, attempt), slotId))
      case Take(_, text) => Some((TakeKey(callId), text))
  }

  /** The calendar and the message store after `n` turns: under each key they keep what they were
      given first. */
  function Held(lx: Lexicon, locale: Locale, ts: seq<Turn>, callId: string, n: nat): map<string, string>
    requires n <= |ts|
  {
    if n == 0 then map[]
    else
      var held, e := Held(lx, locale, ts, callId, n - 1), Effect(lx, locale, ts, callId, n - 1);
      if e.None? || e.value.0 in held then held else held[e.value.0 := e.value.1]
  }

  predicate Uses(lx: Lexicon, locale: Locale, ts: seq<Turn>, callId: string, i: nat, key: string)
    requires i < |ts|
  {
    Effect(lx, locale, ts, callId, i).Some? && Effect(lx, locale, ts, callId, i).value.0 == key
  }

  lemma {:induction false} HeldIffUsed(lx: Lexicon, locale: Locale, ts: seq<Turn>, callId: string, n: nat, key: string)
    requires n <= |ts|
    ensures key in Held(lx, locale, ts, callId, n) <==> exists k :: 0 <= k < n && Uses(lx, locale, ts, callId, k, key)
  {
    hide Effect;
    if n > 0 {
      HeldIffUsed(lx, locale, ts, callId, n - 1, key);
      assert Uses(lx, locale, ts, callId, n - 1, key) ==> key in Held(lx, locale, ts, callId, n);
    }
  }

  lemma {:induction false} HeldStays(lx: Lexicon, locale: Locale, ts: seq<Turn>, callId: string, m: nat, n: nat,
                                     key: string)
    requires m <= n <= |ts| && key in Held(lx, locale, ts, callId, m)
    ensures key in Held(lx, locale, ts, callId, n)
    ensures Held(lx, locale, ts, callId, n)[key] == Held(lx, locale, ts, callId, m)[key]
    decreases n
  {
    hide Effect;
    if m < n { HeldStays(lx, locale, ts, callId, m, n - 1, key); }
  }

  /** What stays under a key is what the first effective call under it asked for. */
  lemma FirstUseIsHeld(lx: Lexicon, locale: Locale, ts: seq<Turn>, callId: string, i: nat, n: nat, key: string)
    requires i < n <= |ts| && Uses(lx, locale, ts, callId, i, key)
    requires forall k :: 0 <= k < i ==> !Uses(lx, locale, ts, callId, k, key)
    ensures key in Held(lx, locale, ts, callId, n)
    ensures Held(lx, locale, ts, callId, n)[key] == Effect(lx, locale, ts, callId, i).value.1
  {
    AddsFirst(lx, locale, ts, callId, i, key);
    hide Effect, Uses, Held;
    HeldStays(lx, locale, ts, callId, i + 1, n, key);
  }

  lemma AddsFirst(lx: Lexicon, locale: Locale, ts: seq<Turn>, callId: string, i: nat, key: string)
    requires i < |ts| && Uses(lx, locale, ts, callId, i, key)
    requires forall k :: 0 <= k < i ==> !Uses(lx, locale, ts, callId, k, key)
    ensures key in Held(lx, locale, ts, callId, i + 1)
    ensures Held(lx, locale, ts, callId, i + 1)[key] == Effect(lx, locale, ts, callId, i).value.1
  {
    hide Effect;
    assert key !in Held(lx, locale, ts, callId, i) by {
      hide Uses, Held;
      HeldIffUsed(lx, locale, ts, callId, i, key);
    }
  }

  // --- messages

  /** A turn that finds the call waiting for a message, is no emergency, and whose message the
      store takes. */
  predicate DeliversAt(lx: Lexicon, locale: Locale, ts: seq<Turn>, i: nat)
    requires i < |ts|
  {
    Before(lx, locale, ts, i).node.Message? && !lx.emergency(ts[i].text) && !ts[i].tool.RaisesUndone?
  }

  /** A turn takes a message exactly when it finds the call waiting for one, and is no emergency. */
  lemma TurnMessages(lx: Lexicon, a: Agent, t: Turn)
    ensures var call := TurnCall(lx, a, t);
            && (call.Some? && call.value.Take? <==> a.node.Message? && !lx.emergency(t.text))
            && (call.Some? && call.value.Take? ==> call.value.text == t.text)
  {
    var s := Screen(lx, Fresh(a), t).agent;
    hide Dialogue, Prefixes, PickSlot;
    DialogueBooksNothing(lx, s, t);
  }

  lemma DeliversIffUses(lx: Lexicon, locale: Locale, ts: seq<Turn>, callId: string, i: nat)
    requires i < |ts|
    ensures DeliversAt(lx, locale, ts, i) <==> Uses(lx, locale, ts, callId, i, TakeKey(callId))
    ensures var e := Effect(lx, locale, ts, callId, i);
            DeliversAt(lx, locale, ts, i) ==> e.Some? && e.value.1 == ts[i].text
  {
    hide TurnCall, BookKey, TakeKey, Before;
    TurnMessages(lx, Before(lx, locale, ts, i), ts[i]);
    var call := CallAt(lx, locale, ts, i);
    if call.Some? && call.value.Book? { KindsDiffer(callId, call.value.attempt); }
  }

  /** Turn `i` added its message to the store. */
  ghost predicate KeptAt(lx: Lexicon, locale: Locale, ts: seq<Turn>, callId: string, i: nat)
    requires i < |ts|
  {
    var held := Held(lx, locale, ts, callId, i);
    TakeKey(callId) !in held && Held(lx, locale, ts, callId, i + 1) == held[TakeKey(callId) := ts[i].text]
  }

  /** A delivered message is kept exactly when no message was delivered before it. */
  lemma MessageKeptIffFirst(lx: Lexicon, locale: Locale, ts: seq<Turn>, callId: string, i: nat)
    requires i < |ts| && DeliversAt(lx, locale, ts, i)
    ensures KeptAt(lx, locale, ts, callId, i) <==> forall k :: 0 <= k < i ==> !DeliversAt(lx, locale, ts, k)
  {
    hide DeliversAt, Effect, TakeKey, Uses;
    HeldIffUsed(lx, locale, ts, callId, i, TakeKey(callId));
    forall k | 0 <= k <= i
      ensures DeliversAt(lx, locale, ts, k) <==> Uses(lx, locale, ts, callId, k, TakeKey(callId))
      ensures var e := Effect(lx, locale, ts, callId, k);
              DeliversAt(lx, locale, ts, k) ==> e.Some? && e.value.1 == ts[k].text
    {
      DeliversIffUses(lx, locale, ts, callId, k);
    }
    AddsIffNew(lx, locale, ts, callId, i);
  }

  lemma AddsIffNew(lx: Lexicon, locale: Locale, ts: seq<Turn>, callId: string, i: nat)
    requires i < |ts| && Uses(lx, locale, ts, callId, i, TakeKey(callId))
    requires Effect(lx, locale, ts, callId, i).Some? && Effect(lx, locale, ts, callId, i).value.1 == ts[i].text
    ensures KeptAt(lx, locale, ts, callId, i) <==> TakeKey(callId) !in Held(lx, locale, ts, callId, i)
  {
    hide Effect, TakeKey;
  }

  /** All messages of a call are kept exactly when no delivering turn comes after another; in any
      case the store ends with the first message delivered, and with that alone. */
  lemma AllMessagesKeptIffNoneFollows(lx: Lexicon, locale: Locale, ts: seq<Turn>, callId: string)
    ensures (forall i :: 0 <= i < |ts| && DeliversAt(lx, locale, ts, i) ==> KeptAt(lx, locale, ts, callId, i))
       <==> forall i, k :: 0 <= k < i < |ts| && DeliversAt(lx, locale, ts, k) ==> !DeliversAt(lx, locale, ts, i)
    ensures forall i :: 0 <= i < |ts| && DeliversAt(lx, locale, ts, i)
                        && (forall k :: 0 <= k < i ==> !DeliversAt(lx, locale, ts, k)) ==>
              var held := Held(lx, locale, ts, callId, |ts|);
              TakeKey(callId) in held && held[TakeKey(callId)] == ts[i].text
  {
    forall i | 0 <= i < |ts| && DeliversAt(lx, locale, ts, i)
      ensures KeptAt(lx, locale, ts, callId, i) <==> forall k :: 0 <= k < i ==> !DeliversAt(lx, locale, ts, k)
    {
      MessageKeptIffFirst(lx, locale, ts, callId, i);
    }
    forall i | 0 <= i < |ts| && DeliversAt(lx, locale, ts, i)
               && forall k :: 0 <= k < i ==> !DeliversAt(lx, locale, ts, k)
      ensures TakeKey(callId) in Held(lx, locale, ts, callId, |ts|)
      ensures Held(lx, locale, ts, callId, |ts|)[TakeKey(callId)] == ts[i].text
    {
      FirstMessageIsHeld(lx, locale, ts, callId, i);
    }
    hide DeliversAt, KeptAt, Held, TakeKey;
  }

  lemma FirstMessageIsHeld(lx: Lexicon, locale: Locale, ts: seq<Turn>, callId: string, i: nat)
    requires i < |ts| && DeliversAt(lx, locale, ts, i) && forall k :: 0 <= k < i ==> !DeliversAt(lx, locale, ts, k)
    ensures TakeKey(callId) in Held(lx, locale, ts, callId, |ts|)
    ensures Held(lx, locale, ts, callId, |ts|)[TakeKey(callId)] == ts[i].text
  {
    forall k | 0 <= k < i ensures !Uses(lx, locale, ts, callId, k, TakeKey(callId)) {
      DeliversIffUses(lx, locale, ts, callId, k);
    }
    DeliversIffUses(lx, locale, ts, callId, i);
    hide DeliversAt, Effect, TakeKey, Held;
    FirstUseIsHeld(lx, locale, ts, callId, i, |ts|, TakeKey(callId));
  }

  // --- the slot the caller is told

  lemma BooksUses(lx: Lexicon, locale: Locale, ts: seq<Turn>, callId: string, i: nat)
    requires i < |ts| && BooksAt(lx, locale, ts, i) && !ts[i].tool.RaisesUndone?
    ensures var call := CallAt(lx, locale, ts, i).value;
            && Uses(lx, locale, ts, callId, i, BookKey(callId, call.attempt))
            && Effect(lx, locale, ts, callId, i).value.1 == call.slotId
  {
    hide TurnCall, BookKey;
  }

  /** The appointment the calendar holds for a completed booking is the one the caller was told
      exactly when the first effective request under its key was for the same slot; later
      requests do not change it. */
  lemma ToldSlotIsHeldIff(lx: Lexicon, locale: Locale, ts: seq<Turn>, callId: string, first: nat, i: nat)
    requires first <= i < |ts| && BooksAt(lx, locale, ts, i) && !RaisesAt(lx, locale, ts, i)
    requires BooksAt(lx, locale, ts, first) && !ts[first].tool.RaisesUndone?
    requires CallAt(lx, locale, ts, first).value.attempt == CallAt(lx, locale, ts, i).value.attempt
    requires forall k :: 0 <= k < first && Effect(lx, locale, ts, callId, k).Some? ==>
               Effect(lx, locale, ts, callId, k).value.0 != BookKey(callId, CallAt(lx, locale, ts, i).value.attempt)
    ensures var key := BookKey(callId, CallAt(lx, locale, ts, i).value.attempt);
            var held := Held(lx, locale, ts, callId, |ts|);
            && key in held
            && (Run(lx, locale, ts[..i + 1]).agent.slots.preferredSlot == Some(held[key])
                <==> CallAt(lx, locale, ts, first).value.slotId == CallAt(lx, locale, ts, i).value.slotId)
  {
    BooksUses(lx, locale, ts, callId, first);
    FirstUseIsHeld(lx, locale, ts, callId, first, |ts|, BookKey(callId, CallAt(lx, locale, ts, i).value.attempt));
    RunNext(lx, locale, ts, i);
    BookedIsPreferred(lx, Run(lx, locale, ts[..i]), ts[i]);
    hide HandleTurn, TurnCall, Raises, Held, Effect, BookKey, Run;
  }

  lemma BookedIsPreferred(lx: Lexicon, c: Call, t: Turn)
    requires var call := TurnCall(lx, c.agent, t); call.Some? && call.value.Book? && !Raises(lx, c.agent, t)
    ensures HandleTurn(lx, c, t).agent.slots.preferredSlot == Some(TurnCall(lx, c.agent, t).value.slotId)
  {
    TurnAgent(lx, c, t);
    var s := Screen(lx, Fresh(c.agent), t).agent;
    hide HandleTurn, Dialogue, Prefixes, PickSlot;
    DialogueBooksNothing(lx, s, t);
  }
}
