/** When a user turn contains, or repeats, the one before it: exactly, over every run, and two
    runs in which the same words are delivered twice. */
module TurnRepeats {
  import opened Common
  import opened Text
  import opened Endpoint
  import opened TurnWatch
  import opened TurnModel
  import opened TurnWords
  import opened TurnProtocol
  import opened TurnDucking
  import TurnCalm
  import Meter

  /** What was said, from `w` on, as the log tells it. */
  function Said(w: Words, acts: seq<Act>): Words {
    if acts == [] then w
    else
      var before, a := Said(w, acts[..|acts| - 1]), acts[|acts| - 1];
      match a
      case Absorbed(text, isFinal) => Taken(before, text, isFinal)
      case DraftReset => NOTHING_SAID
      case _ => before
  }

  ghost predicate HasAgentTurn(acts: seq<Act>) { exists k :: 0 <= k < |acts| && acts[k].AgentTurn? }

  ghost predicate HasReset(acts: seq<Act>) { exists k :: 0 <= k < |acts| && acts[k].DraftReset? }

  ghost predicate HasAbsorbed(acts: seq<Act>) { exists k :: 0 <= k < |acts| && acts[k].Absorbed? }

  /** `log[j]` is the first user turn after `log[i]`. */
  ghost predicate NextTurn(log: seq<Act>, i: nat, j: nat) {
    && i < j < |log| && log[i].UserTurn? && log[j].UserTurn?
    && forall k :: i < k < j ==> !log[k].UserTurn?
  }

  lemma LastAct(acts: seq<Act>)
    requires acts != []
    ensures var u, a := acts[..|acts| - 1], acts[|acts| - 1];
            && (HasAgentTurn(acts) <==> HasAgentTurn(u) || a.AgentTurn?)
            && (HasReset(acts) <==> HasReset(u) || a.DraftReset?)
            && (HasAbsorbed(acts) <==> HasAbsorbed(u) || a.Absorbed?)
  {
    var u, n := acts[..|acts| - 1], |acts| - 1;
    assert forall k :: 0 <= k < n ==> u[k] == acts[k];
    if HasAgentTurn(u) { var k :| 0 <= k < n && u[k].AgentTurn?; assert acts[k].AgentTurn?; }
    if HasReset(u) { var k :| 0 <= k < n && u[k].DraftReset?; assert acts[k].DraftReset?; }
    if HasAbsorbed(u) { var k :| 0 <= k < n && u[k].Absorbed?; assert acts[k].Absorbed?; }
    assert acts[n] == acts[|acts| - 1];
  }

  /** The book some time after the user turn `text`: it holds what was said since, and owes a
      reset exactly between an agent turn and the reset for it. */
  ghost predicate Since(b: Book, text: string, acts: seq<Act>) {
    && b.held == Said(Words(text, [], ""), acts)
    && (HasReset(acts) ==> HasAgentTurn(acts))
    && (HasAgentTurn(acts) ==> HasReset(acts) || b.owed)
    && (b.owed ==> HasAgentTurn(acts))
    && (Tidy(text) ==> Clean(b.held))
  }

  lemma SinceStep(b: Book, text: string, acts: seq<Act>, a: Act)
    requires Since(b, text, acts) && BookAllows(b, a) && !a.UserTurn?
    ensures Since(BookStep(b, a), text, acts + [a])
  {
    var more := acts + [a];
    assert more[..|more| - 1] == acts && more[|more| - 1] == a;
    LastAct(more);
    CleanStays(b.held, a);
    hide HasReset, HasAgentTurn, HasAbsorbed, Clean, Tidy, Draft;
  }

  lemma {:induction false} BookSince(log: seq<Act>, i: nat)
    requires i < |log| && log[i].UserTurn? && Watched(log).book.ok
    requires forall k :: i < k < |log| ==> !log[k].UserTurn?
    ensures Since(Watched(log).book, log[i].text, log[i + 1..])
    decreases |log|
  {
    hide BookAllows, Since, ProtoStep, CalmStep, LineStep;
    var n := |log| - 1;
    BookAt(log, n);
    assert log[..n + 1] == log;
    BookOkAt(Watched(log[..n]).book, log[n]);
    if i == n {
      assert log[i + 1..] == [];
      JustDelivered(Watched(log[..n]).book, log[n]);
    } else {
      BookPrefixOk(log, n);
      BookSince(log[..n], i);
      assert log[i + 1..] == log[..n][i + 1..] + [log[n]];
      SinceStep(Watched(log[..n]).book, log[i].text, log[..n][i + 1..], log[n]);
    }
  }

  lemma BookOkAt(b: Book, a: Act)
    requires BookStep(b, a).ok
    ensures BookAllows(b, a)
  {}

  lemma JustDelivered(b: Book, a: Act)
    requires a.UserTurn? && BookAllows(b, a)
    ensures Since(BookStep(b, a), a.text, [])
  {}

  lemma CleanStays(w: Words, a: Act)
    requires a.Absorbed? ==> Solid(a.text)
    ensures a.Absorbed? && Clean(w) ==> Clean(Taken(w, a.text, a.isFinal))
    ensures Clean(NOTHING_SAID)
  {}

  lemma {:induction false} SaidParts(w: Words, acts: seq<Act>)
    requires w.finals == [] && w.lastPart == ""
    requires forall k :: 0 <= k < |acts| && acts[k].Absorbed? ==> acts[k].text != ""
    ensures var r := Said(w, acts);
            && r.carryText == (if HasReset(acts) then "" else w.carryText)
            && (!HasReset(acts) ==> (HasAbsorbed(acts) <==> r.finals != [] || r.lastPart != ""))
  {
    if acts != [] {
      SaidParts(w, acts[..|acts| - 1]);
      LastAct(acts);
    }
  }

  lemma {:induction false} JoinLonger(parts: seq<string>)
    requires |parts| >= 2 && forall p :: p in parts ==> p != ""
    ensures |Join(parts)| > |parts[0]|
  {
    var front := parts[..|parts| - 1];
    assert parts == front + [parts[|parts| - 1]];
    JoinSnoc(front, parts[|parts| - 1]);
    assert forall p :: p in front ==> p in parts;
    if |front| > 1 { JoinLonger(front); } else { assert Join(front) == front[0]; }
  }

  lemma DraftRepeats(text: string, w: Words)
    requires Clean(w) && w.carryText == text && text != ""
    ensures Draft(w) == text <==> w.finals == [] && w.lastPart == ""
  {
    DraftIsJoin(w);
    BaseSolid(w);
    var parts := Parts(w);
    assert parts[0] == text;
    if w.finals == [] && w.lastPart == "" {
      assert parts == [text];
    } else {
      assert |parts| >= 2;
      JoinLonger(parts);
    }
  }

  lemma {:induction false} AbsorbedSolid(log: seq<Act>)
    requires Watched(log).book.ok
    ensures forall k :: 0 <= k < |log| && log[k].Absorbed? ==> log[k].text != ""
  {
    hide Draft, ProtoStep, CalmStep, LineStep;
    if log != [] {
      AbsorbedSolid(log[..|log| - 1]);
      BookOkAt(Watched(log[..|log| - 1]).book, log[|log| - 1]);
      assert forall k :: 0 <= k < |log| - 1 ==> log[..|log| - 1][k] == log[k];
    }
  }

  /** A user turn delivers its held words, over any accepted log. */
  lemma TurnIsDraft(log: seq<Act>, j: nat)
    requires j < |log| && log[j].UserTurn? && Watched(log).book.ok
    ensures var b := Watched(log[..j]).book;
            b.ok && log[j].text == Draft(b.held) && log[j].text != "" && Tidy(log[j].text) && !b.owed
  {
    hide Draft, ProtoStep, CalmStep, LineStep;
    BookAt(log, j);
    BookPrefixOk(log, j);
    var b := Watched(log[..j]).book;
    BookOkAt(b, log[j]);
    assert Tidy(Draft(b.held)) by { DraftTidy(b.held); }
  }

  lemma DraftTidy(w: Words)
    ensures Tidy(Draft(w))
  {
    TrimSpaceTidy(Join(Parts(w)));
  }

  // --- drafts that are reset

  /** The turn delivered last, in the log. */
  lemma {:induction false} DeliveredBy(log: seq<Act>) returns (i: nat)
    requires Watched(log).book.delivered.Some?
    ensures i < |log| && log[i].UserTurn? && log[i].text == Watched(log).book.delivered.value
    ensures forall k :: i < k < |log| ==> !log[k].UserTurn? && !log[k].DraftReset?
  {
    hide BookAllows, ProtoStep, CalmStep, LineStep;
    var u, a := log[..|log| - 1], log[|log| - 1];
    if a.UserTurn? {
      i := |log| - 1;
    } else {
      i := DeliveredBy(u);
    }
  }

  lemma ResetAllowed(log: seq<Act>, j: nat)
    requires j < |log| && log[j].DraftReset? && Watched(log).book.ok
    ensures var b := Watched(log[..j]).book;
            b.ok && b.delivered.Some? && Draft(b.held) == b.delivered.value
  {
    hide Draft, ProtoStep, CalmStep, LineStep;
    BookAt(log, j);
    BookPrefixOk(log, j);
    BookOkAt(Watched(log[..j]).book, log[j]);
  }

  /** What a reset throws away was delivered: in the log of every run, before each reset comes a
      user turn since which no other was delivered, no draft was reset and nothing was absorbed. */
  lemma ResetsThrowNothingAway(c: Config, inputs: seq<Input>, j: nat)
    requires j < |Run(c, inputs).seen.log| && Run(c, inputs).seen.log[j].DraftReset?
    ensures var log := Run(c, inputs).seen.log;
            exists i: nat :: i < j && log[i].UserTurn?
              && forall k :: i < k < j ==> !log[k].UserTurn? && !log[k].DraftReset? && !log[k].Absorbed?
  {
    hide Run, Watched, Since, Draft, Said, HasReset, Clean;
    RunKeepsWords(c, inputs);
    var log := Run(c, inputs).seen.log;
    ResetAllowed(log, j);
    var u := log[..j];
    var i := DeliveredBy(u);
    assert u[i] == log[i] && forall k :: i < k < j ==> u[k] == log[k];
    TurnIsDraft(log, i);
    BookSince(u, i);
    NothingSince(u, i, Watched(u).book);
    forall k | i < k < j ensures !log[k].Absorbed? { assert log[k] == u[k] == u[i + 1..][k - i - 1]; }
  }

  lemma NothingSince(u: seq<Act>, i: nat, b: Book)
    requires i < |u| && u[i].UserTurn? && Since(b, u[i].text, u[i + 1..]) && b == Watched(u).book && b.ok
    requires forall k :: i < k < |u| ==> !u[k].UserTurn? && !u[k].DraftReset?
    requires u[i].text != "" && Tidy(u[i].text) && Draft(b.held) == u[i].text
    ensures !HasAbsorbed(u[i + 1..])
  {
    hide Watched, Draft, Said, Tidy, Clean, HasAbsorbed;
    var text, acts := u[i].text, u[i + 1..];
    AbsorbedSolid(u);
    assert forall k :: 0 <= k < |acts| ==> acts[k] == u[i + 1 + k];
    SaidParts(Words(text, [], ""), acts);
    DraftRepeats(text, b.held);
    assert !HasReset(acts);
  }

  /** Over every run, for a user turn and the next one: the next delivers what was said since;
      the earlier text is carried into it exactly when no agent turn was reported between them;
      and carried text is repeated word for word exactly when nothing was absorbed between. */
  lemma NextTurnCarriesIffNoAgentTurn(c: Config, inputs: seq<Input>, i: nat, j: nat)
    requires NextTurn(Run(c, inputs).seen.log, i, j)
    ensures var log := Run(c, inputs).seen.log;
            var text, between := log[i].text, log[i + 1..j];
            var w := Said(Words(text, [], ""), between);
            && text != "" && log[j].text == Draft(w)
            && w.carryText == (if HasAgentTurn(between) then "" else text)
            && (!HasAgentTurn(between) ==>
                  text <= log[j].text && (log[j].text == text <==> !HasAbsorbed(between)))
  {
    hide Run, Draft, Watched, Said, HasAgentTurn, HasReset, HasAbsorbed, Tidy;
    RunKeepsWords(c, inputs);
    var log := Run(c, inputs).seen.log;
    NextTurnOf(log, i, j);
  }

  lemma NextTurnOf(log: seq<Act>, i: nat, j: nat)
    requires NextTurn(log, i, j) && Watched(log).book.ok
    ensures var text, between := log[i].text, log[i + 1..j];
            var w := Said(Words(text, [], ""), between);
            && text != "" && log[j].text == Draft(w)
            && w.carryText == (if HasAgentTurn(between) then "" else text)
            && (!HasAgentTurn(between) ==>
                  text <= log[j].text && (log[j].text == text <==> !HasAbsorbed(between)))
  {
    hide Draft, Watched, Said, HasAgentTurn, HasReset, HasAbsorbed, Tidy, Clean;
    TurnIsDraft(log, i);
    TurnIsDraft(log, j);
    BookSince(log[..j], i);
    var text, between := log[i].text, log[i + 1..j];
    assert log[..j][i + 1..] == between;
    AbsorbedSolid(log);
    forall k | 0 <= k < |between| && between[k].Absorbed? ensures between[k].text != "" {
      assert between[k] == log[i + 1 + k];
    }
    SaidParts(Words(text, [], ""), between);
    var w := Said(Words(text, [], ""), between);
    if !HasAgentTurn(between) {
      DraftRepeats(text, w);
      CarryIsPrefix(w);
    }
  }

  // --- two causes

  /** The texts of the user turns a machine has delivered. */
  function Delivered(m: Machine): seq<string> {
    seq(|m.seen.calm.fired|, k requires 0 <= k < |m.seen.calm.fired| => m.seen.calm.fired[k].text)
  }

  const QUIET_METER := Meter.INITIAL

  ghost predicate Stands(m: Machine, phase: Phase, ms: int, spokeMs: int, words: Words, texts: seq<string>) {
    && m.phase == phase && m.clock == Clock(ms, spokeMs, false, QUIET_METER) && m.words == words
    && Delivered(m) == texts
  }

  lemma QuietPauses(m: Machine, env: Env, ms: int, spokeMs: int, words: Words, texts: seq<string>)
    requires Stands(m, Listening, ms, spokeMs, words, texts) && Draft(words) != "" && spokeMs <= ms
    ensures Stands(Step(QuickConfig(), m, Frame(false, env)), Endpointing, ms + 20, spokeMs, words, texts)
  {
    hide Watched, ProtoStep, BookStep, CalmStep, LineStep, Draft, Advance, SetState;
    TurnCalm.AdvanceCalm(QuickConfig(), m, false, env);
    AdvanceTo(m, false, env);
    TurnCalm.SetStateStill(Advance(QuickConfig(), m, false, env), Endpointing);
  }

  lemma AdvanceTo(m: Machine, loud: bool, env: Env)
    ensures Advance(QuickConfig(), m, loud, env).clock == AdvanceClock(QuickConfig(), m.clock, loud)
  {
    hide Watched, ProtoStep, BookStep, CalmStep, LineStep, Report;
  }

  /** The wait is over: the draft fires, and a reply is opened or fails. */
  lemma QuietFires(m: Machine, env: Env, ms: int, spokeMs: int, words: Words, texts: seq<string>)
    requires Stands(m, Endpointing, ms, spokeMs, words, texts) && Draft(words) != "" && spokeMs <= ms
    ensures var phase := if env.agentOk && env.speakOk then Thinking else Listening;
            Stands(Step(QuickConfig(), m, Frame(false, env)), phase, ms + 20, spokeMs,
                   Words(Draft(words), [], ""), texts + [Draft(words)])
  {
    hide Watched, ProtoStep, BookStep, CalmStep, LineStep, Draft, Advance, WaitForMs, FinalizeUserTurn;
    TurnCalm.AdvanceCalm(QuickConfig(), m, false, env);
    AdvanceTo(m, false, env);
    var m1 := Advance(QuickConfig(), m, false, env);
    ZeroWait(QuickConfig(), Draft(words), m1.locale);
    TurnCalm.FinalizeCalm(QuickConfig(), m1, env);
    if env.agentOk && env.speakOk { FinalizeThinks(m1, env); } else { TurnCalm.FinalizeFails(QuickConfig(), m1, env); }
  }

  lemma FinalizeThinks(m: Machine, env: Env)
    requires Draft(m.words) != "" && env.agentOk && env.speakOk
    ensures FinalizeUserTurn(QuickConfig(), m, env).phase == Thinking
  {
    hide Watched, ProtoStep, BookStep, CalmStep, LineStep, Draft, BeginThinking;
    TurnCalm.BeginThinkingStill(QuickConfig(), OpenReply(DeliverUserTurn(m, Draft(m.words))));
  }

  /** A bare energy onset while the reply is prepared sends the machine back to listening. */
  lemma OnsetRethinks(m: Machine, ms: int, spokeMs: int, words: Words, texts: seq<string>)
    requires Stands(m, Thinking, ms, spokeMs, words, texts)
    ensures var r := Step(QuickConfig(), m, Frame(true, FINE));
            && r.phase == Listening && r.clock == Clock(ms + 20, ms + 20, true, Meter.State(1, 0, true))
            && r.words == words && Delivered(r) == texts
  {
    hide Watched, ProtoStep, BookStep, CalmStep, LineStep, Advance, CancelTurn, SetState;
    AdvanceTo(m, true, FINE);
    var m1 := Advance(QuickConfig(), m, true, FINE);
    AdvanceDelivers(m, true, FINE);
    TurnCalm.CancelStill(m1);
    TurnCalm.SetStateStill(CancelTurn(m1), Listening);
  }

  lemma AdvanceDelivers(m: Machine, loud: bool, env: Env)
    ensures var r := Advance(QuickConfig(), m, loud, env);
            r.phase == m.phase && r.words == m.words && Delivered(r) == Delivered(m)
  {
    hide Watched, ProtoStep, BookStep, LineStep, Report;
    TurnCalm.ReportStill(m, env.sttOk, "stt");
  }

  /** The onset was not speech: the detector falls silent again, and the machine waits anew. */
  lemma QuietAfterOnset(m: Machine, ms: int, words: Words)
    requires m.phase == Listening && m.clock == Clock(ms, ms, true, Meter.State(1, 0, true))
    requires m.words == words && Draft(words) != ""
    ensures Stands(Step(QuickConfig(), m, Frame(false, FINE)), Endpointing, ms + 20, ms, words, Delivered(m))
  {
    hide Watched, ProtoStep, BookStep, CalmStep, LineStep, Draft, Advance, SetState;
    AdvanceTo(m, false, FINE);
    AdvanceDelivers(m, false, FINE);
    TurnCalm.SetStateStill(Advance(QuickConfig(), m, false, FINE), Endpointing);
  }

  const BROKEN := FINE.(agentOk := false)

  const HI := Stt(Result("hi", true, ""), FINE)

  const AGENT_FAILS: seq<Input> := [
    HI, Frame(false, FINE), Frame(false, BROKEN), Frame(false, FINE), Frame(false, FINE)]

  const BARE_ONSET: seq<Input> := [
    HI, Frame(false, FINE), Frame(false, FINE), Frame(true, FINE), Frame(false, FINE), Frame(false, FINE)]

  lemma HiHeard(m: Machine)
    requires m == Initial(QuickConfig())
    ensures Stands(Step(QuickConfig(), m, HI), Listening, 0, 0, Words("", ["hi"], ""), [])
  {
    hide Watched, ProtoStep, BookStep, LineStep, TrimSpace;
    HiIsDraft();
  }

  lemma HiCarried()
    ensures Draft(Words("hi", [], "")) == "hi" == Draft(Words("", ["hi"], ""))
  {
    HiIsDraft();
    assert Parts(Words("hi", [], "")) == ["hi"];
  }

  /** Cause one: the agent fails to start, and silence delivers the same words again. */
  lemma AgentFailureRepeats()
    ensures Delivered(Run(QuickConfig(), AGENT_FAILS)) == ["hi", "hi"]
  {
    hide Run, Step, Draft, Delivered, Stands;
    var c, t := QuickConfig(), AGENT_FAILS;
    var said, carried := Words("", ["hi"], ""), Words("hi", [], "");
    HiCarried();
    RunEmpty(c);
    assert t[..0] == [] && t[..5] == t && [] + ["hi"] == ["hi"];
    RunStep(c, t, 1);
    HiHeard(Run(c, t[..0]));
    RunStep(c, t, 2);
    QuietPauses(Run(c, t[..1]), FINE, 0, 0, said, []);
    RunStep(c, t, 3);
    QuietFires(Run(c, t[..2]), BROKEN, 20, 0, said, []);
    RunStep(c, t, 4);
    QuietPauses(Run(c, t[..3]), FINE, 40, 0, carried, ["hi"]);
    RunStep(c, t, 5);
    QuietFires(Run(c, t[..4]), FINE, 60, 0, carried, ["hi"]);
    StandsDelivered(Run(c, t[..5]), Thinking, 80, 0, carried, ["hi"] + ["hi"]);
  }

  lemma StandsDelivered(m: Machine, phase: Phase, ms: int, spokeMs: int, words: Words, texts: seq<string>)
    requires Stands(m, phase, ms, spokeMs, words, texts)
    ensures Delivered(m) == texts
  {}

  lemma OnsetThenQuiet(m: Machine, ms: int, spokeMs: int, words: Words, texts: seq<string>)
    requires Stands(m, Thinking, ms, spokeMs, words, texts) && Draft(words) != ""
    ensures Stands(Step(QuickConfig(), Step(QuickConfig(), m, Frame(true, FINE)), Frame(false, FINE)),
                   Endpointing, ms + 40, ms + 20, words, texts)
  {
    hide Step, Draft, Delivered;
    OnsetRethinks(m, ms, spokeMs, words, texts);
    QuietAfterOnset(Step(QuickConfig(), m, Frame(true, FINE)), ms + 20, words);
  }

  /** The first turn is delivered, and the reply is being prepared. */
  lemma UntilThinking()
    ensures Stands(Run(QuickConfig(), BARE_ONSET[..3]), Thinking, 40, 0, Words("hi", [], ""), ["hi"])
  {
    hide Run, Step, Draft, Delivered, Stands;
    var c, t := QuickConfig(), BARE_ONSET;
    var said := Words("", ["hi"], "");
    HiCarried();
    RunEmpty(c);
    assert t[..0] == [] && [] + ["hi"] == ["hi"];
    RunStep(c, t, 1);
    HiHeard(Run(c, t[..0]));
    RunStep(c, t, 2);
    QuietPauses(Run(c, t[..1]), FINE, 0, 0, said, []);
    RunStep(c, t, 3);
    QuietFires(Run(c, t[..2]), FINE, 20, 0, said, []);
  }

  /** Cause two, with every provider fine and nothing more recognized: one loud frame. */
  lemma BareOnsetRepeats()
    ensures Delivered(Run(QuickConfig(), BARE_ONSET)) == ["hi", "hi"]
  {
    hide Run, Step, Draft, Delivered, Stands;
    var c, t := QuickConfig(), BARE_ONSET;
    var carried := Words("hi", [], "");
    HiCarried();
    UntilThinking();
    assert t[..6] == t;
    RunStep(c, t, 4);
    RunStep(c, t, 5);
    OnsetThenQuiet(Run(c, t[..3]), 40, 0, carried, ["hi"]);
    RunStep(c, t, 6);
    QuietFires(Run(c, t[..5]), FINE, 80, 60, carried, ["hi"]);
    StandsDelivered(Run(c, t[..6]), Thinking, 100, 60, carried, ["hi"] + ["hi"]);
  }
}
