/** Conservation of the caller's words: what the recognizer finalized and the machine took in
    is in the current draft or in a delivered user turn, in order. */
module TurnWords {
  import opened Common
  import opened Text
  import opened Endpoint
  import opened TurnWatch
  import opened TurnModel
  import opened TurnProtocol

  /** The part of the draft that later results cannot replace. */
  function Base(w: Words): seq<string> {
    (if w.carryText != "" then [w.carryText] else []) + w.finals
  }

  ghost predicate Clean(w: Words) {
    Tidy(w.carryText) && Tidy(w.lastPart) && forall f :: f in w.finals ==> Solid(f)
  }

  ghost predicate Kept(e: Epoch) { Embeds(e.finals, e.delivered) }

  ghost predicate WordsInv(m: Machine) { WordsOwing(m, false) }

  /** `owed`: an agent turn was reported and its draft is still to be reset. */
  ghost predicate WordsOwing(m: Machine, owed: bool) {
    var w, b := m.words, m.seen.book;
    && Clean(w)
    && (m.phase == Thinking || m.phase == Speaking ==>
          w.carryText != "" && w.finals == [] && w.lastPart == "")
    && b.ok
    && b.delivered == (if w.carryText != "" then Some(w.carryText) else None)
    && b.held == w && b.owed == owed
    && Embeds(b.current, Join(Base(w)))
    && forall e :: e in b.closed ==> Kept(e)
  }

  lemma BaseSolid(w: Words)
    requires Clean(w)
    ensures forall p :: p in Parts(w) ==> Solid(p)
    ensures forall p :: p in Base(w) ==> Solid(p)
  {}

  /** The draft is the join of its parts; trimming it changes nothing. */
  lemma DraftIsJoin(w: Words)
    requires Clean(w)
    ensures Draft(w) == Join(Parts(w)) && (Draft(w) == "" <==> Parts(w) == [])
    ensures w.lastPart == "" ==> Draft(w) == Join(Base(w))
    ensures w.lastPart != "" && Base(w) != [] ==> Draft(w) == Join(Base(w)) + " " + w.lastPart
    ensures w.lastPart != "" && Base(w) == [] ==> Draft(w) == w.lastPart
  {
    BaseSolid(w);
    JoinSolid(Parts(w));
    TrimSpaceTidy(Join(Parts(w)));
    if w.lastPart == "" {
      assert Parts(w) == Base(w);
    } else {
      assert Parts(w) == Base(w) + [w.lastPart];
      JoinSnoc(Base(w), w.lastPart);
    }
  }

  lemma {:induction false} JoinStartsWith(parts: seq<string>)
    requires parts != []
    ensures parts[0] <= Join(parts)
  {
    if |parts| > 1 {
      assert Join(parts)[..|parts[0]|] == parts[0];
    }
  }

  /** Whatever is added to a carried text comes after it. */
  lemma CarryIsPrefix(w: Words)
    requires Clean(w)
    ensures w.carryText <= Draft(w)
  {
    DraftIsJoin(w);
    if w.carryText != "" {
      assert Parts(w)[0] == w.carryText;
      JoinStartsWith(Parts(w));
    }
  }

  lemma DraftEmbeds(w: Words, current: seq<string>)
    requires Clean(w) && Embeds(current, Join(Base(w)))
    ensures Embeds(current, Draft(w))
  {
    DraftIsJoin(w);
    if w.lastPart != "" {
      EmbedsExtend(current, Join(Base(w)), if Base(w) != [] then " " + w.lastPart else w.lastPart);
      assert Base(w) != [] ==> Join(Base(w)) + (" " + w.lastPart) == Draft(w);
      assert Base(w) == [] ==> Join(Base(w)) + w.lastPart == Draft(w);
    }
  }

  // --- one step

  /** Words and book are as before. */
  ghost predicate Untouched(m: Machine, r: Machine) {
    r.words == m.words && r.seen.book == m.seen.book
  }

  lemma ReportUntouched(m: Machine, ok: bool, stage: string)
    ensures Untouched(m, Report(m, ok, stage)) && Report(m, ok, stage).phase == m.phase
  {
    hide Watched, ProtoStep, CalmStep, LineStep;
  }

  lemma CancelUntouched(m: Machine)
    ensures Untouched(m, CancelTurn(m)) && CancelTurn(m).phase == m.phase
  {
    hide Watched, ProtoStep, CalmStep, LineStep;
  }

  lemma AdvanceUntouched(c: Config, m: Machine, loud: bool, env: Env)
    ensures Untouched(m, Advance(c, m, loud, env)) && Advance(c, m, loud, env).phase == m.phase
  {
    hide Watched, ProtoStep, CalmStep, LineStep, Report;
    ReportUntouched(m, env.sttOk, "stt");
  }

  lemma WriteClipUntouched(m: Machine, ms: nat, env: Env)
    ensures Untouched(m, WriteClip(m, ms, env)) && WriteClip(m, ms, env).phase == m.phase
  {
    hide Watched, ProtoStep, CalmStep, LineStep, Report;
    ReportUntouched(Emit(m, ClipWritten(ms, env.writeOk)), env.writeOk, "playback");
  }

  lemma SetStateUntouched(m: Machine, s: Phase)
    ensures Untouched(m, SetState(m, s)) && SetState(m, s).phase == s
  {
    hide Watched, ProtoStep, CalmStep, LineStep;
  }

  lemma FailTurnUntouched(m: Machine, env: Env)
    ensures Untouched(m, FailTurn(m, env)) && FailTurn(m, env).phase == Listening
  {
    hide Watched, BookStep, ProtoStep, CalmStep, LineStep, CancelTurn, WriteClip, SetState;
    CancelUntouched(m);
    var m1 := CancelTurn(m);
    if env.clip.Some? {
      WriteClipUntouched(m1, env.clip.value, env);
    }
    SetStateUntouched(if env.clip.Some? then WriteClip(m1, env.clip.value, env) else m1, Listening);
  }

  lemma BeginThinkingUntouched(c: Config, m: Machine)
    ensures Untouched(m, BeginThinking(c, m)) && BeginThinking(c, m).phase == Thinking
  {
    hide Watched, ProtoStep, CalmStep, LineStep;
  }

  lemma StartUntouched(c: Config, m: Machine, env: Env)
    ensures var r := StartAgentTurn(c, m, env);
            Untouched(m, r) && (r.phase == Listening || r.phase == Thinking)
  {
    hide Watched, ProtoStep, CalmStep, LineStep, FailTurn, BeginThinking;
    var m1 := OpenReply(m);
    FailTurnUntouched(Emit(m1, Failed("agent")), env);
    FailTurnUntouched(Emit(m1, Failed("tts")), env);
    BeginThinkingUntouched(c, m1);
  }

  /** Delivering the draft keeps every absorbed final in it and starts with the last turn. */
  lemma DeliverKeepsWords(m: Machine)
    requires WordsInv(m) && Draft(m.words) != ""
    ensures var r := DeliverUserTurn(m, Draft(m.words));
            && Clean(r.words) && r.seen.book.ok && r.words == Words(Draft(m.words), [], "")
            && r.seen.book.held == r.words && !r.seen.book.owed
            && r.seen.book.delivered == Some(Draft(m.words))
            && Embeds(r.seen.book.current, Join(Base(r.words)))
            && r.seen.book.closed == m.seen.book.closed && r.phase == m.phase
  {
    hide Watched, ProtoStep, CalmStep, LineStep;
    CarryIsPrefix(m.words);
    DraftEmbeds(m.words, m.seen.book.current);
    TrimSpaceTidy(Join(Parts(m.words)));
  }

  lemma FinalizeKeepsWords(c: Config, m: Machine, env: Env)
    requires WordsInv(m)
    ensures WordsInv(FinalizeUserTurn(c, m, env))
  {
    hide Watched, BookStep, ProtoStep, CalmStep, LineStep, StartAgentTurn, DeliverUserTurn, SetState, Draft;
    if Draft(m.words) != "" {
      DeliverKeepsWords(m);
      StartUntouched(c, DeliverUserTurn(m, Draft(m.words)), env);
    } else {
      SetStateUntouched(m, Listening);
    }
  }

  /** The effect of absorbing one text on the draft. */
  lemma AbsorbFinalEmbeds(w: Words, current: seq<string>, text: string)
    requires Clean(w) && Solid(text) && Embeds(current, Join(Base(w)))
    ensures var w1 := Words(w.carryText, w.finals + [text], "");
            Clean(w1) && Embeds(current + [text], Join(Base(w1)))
  {
    var w1 := Words(w.carryText, w.finals + [text], "");
    assert Base(w1) == Base(w) + [text];
    JoinSnoc(Base(w), text);
    EmbedsSnoc(current, Join(Base(w)), if Base(w) == [] then "" else " ", text);
    assert Base(w) == [] ==> Join(Base(w)) + "" + text == Join(Base(w1));
  }

  lemma AbsorbKeepsWords(m: Machine, r: Result)
    requires WordsInv(m) && m.phase != Thinking && m.phase != Speaking && TrimSpace(r.text) != ""
    ensures WordsInv(AbsorbAsSpeech(m, r)) && AbsorbAsSpeech(m, r).phase == m.phase
  {
    hide Watched, ProtoStep, CalmStep, LineStep, TrimSpace, Embeds, Join;
    TrimSpaceTidy(r.text);
    var text, w := TrimSpace(r.text), m.words;
    if r.isFinal {
      AbsorbFinalEmbeds(w, m.seen.book.current, text);
    } else {
      assert Base(w.(lastPart := text)) == Base(w);
    }
  }

  /** A draft is reset only with its whole text delivered: the epoch closes with every final
      in the delivered turn. */
  lemma ResetKeepsWords(m: Machine)
    requires WordsOwing(m, true) && (m.phase == Thinking || m.phase == Speaking)
    ensures WordsInv(ResetDraft(m).(phase := Listening))
    ensures Draft(m.words) == m.seen.book.delivered.value
  {
    hide Watched, ProtoStep, CalmStep, LineStep;
    var b := m.seen.book;
    assert Base(m.words) == [m.words.carryText];
    DraftIsJoin(m.words);
    assert Kept(Epoch(b.current, m.words.carryText));
  }

  lemma CompleteKeepsWords(c: Config, m: Machine)
    requires WordsInv(m) && (m.phase == Thinking || m.phase == Speaking)
    ensures WordsInv(CompleteAgentTurn(c, m))
  {
    hide Watched, ProtoStep, CalmStep, LineStep, CancelTurn, SetState, ResetDraft, Playout.SpokenBy;
    CancelUntouched(m);
    var text := if m.reply.tracker.Some?
                then Playout.SpokenBy(m.reply.tracker.value, PlayedMs(m) + c.playoutOffsetMs).0 else "";
    var m1 := Emit(CancelTurn(m), AgentTurn(text, false));
    ResetKeepsWords(m1);
    SetStateUntouched(ResetDraft(m1), Listening);
  }

  lemma DuckingUntouched(c: Config, m: Machine, onset: bool)
    ensures var r := UnduckWhenUnconfirmed(c, DuckOnOnset(m, onset)); Untouched(m, r) && r.phase == m.phase
  {
    hide Watched, ProtoStep, CalmStep, LineStep;
  }

  lemma FrameKeepsWords(c: Config, m: Machine, loud: bool, env: Env)
    requires WordsInv(m)
    ensures WordsInv(OnFrame(c, m, loud, env))
  {
    hide Watched, BookStep, ProtoStep, CalmStep, LineStep, Advance, FinalizeUserTurn, CompleteAgentTurn,
      DuckOnOnset, UnduckWhenUnconfirmed, CancelTurn, Draft, WaitForMs, SetState;
    AdvanceUntouched(c, m, loud, env);
    var m1 := Advance(c, m, loud, env);
    SetStateUntouched(m1, Endpointing);
    SetStateUntouched(m1, Listening);
    FinalizeKeepsWords(c, m1, env);
    CancelUntouched(m1);
    SetStateUntouched(CancelTurn(m1), Listening);
    if m.phase == Speaking {
      var onset := m1.clock.prevSpeaking && !m.clock.prevSpeaking;
      DuckingUntouched(c, m1, onset);
      CompleteKeepsWords(c, UnduckWhenUnconfirmed(c, DuckOnOnset(m1, onset)));
    }
  }

  lemma CutUntouched(m: Machine, env: Env)
    ensures var r := Unduck(FlushLine(CancelTurn(m), env)); Untouched(m, r) && r.phase == m.phase
  {
    hide Watched, ProtoStep, CalmStep, LineStep, CancelTurn, Report;
    CancelUntouched(m);
    var m1 := Emit(CancelTurn(m), Flushed(env.flushOk));
    ReportUntouched(m1, env.flushOk, "playback");
  }

  lemma BargeInKeepsWords(c: Config, m: Machine, r: Result, env: Env)
    requires WordsInv(m) && m.phase == Speaking && TrimSpace(r.text) != ""
    ensures WordsInv(ConfirmBargeIn(m, r, env))
  {
    hide Watched, ProtoStep, CalmStep, LineStep, CancelTurn, FlushLine, Unduck, InterruptedText,
      ResetDraft, AbsorbAsSpeech, SetState, TrimSpace;
    CutUntouched(m, env);
    var m1 := Unduck(FlushLine(CancelTurn(m), env));
    var m2 := Emit(Emit(m1, AgentTurn(InterruptedText(m), true)), BargeIn(r.text));
    ResetKeepsWords(m2);
    ResetThenAbsorb(m2, r);
    SetStateUntouched(AbsorbAsSpeech(ResetDraft(m2), r), Listening);
  }

  /** Absorbing does not look at the state, so it may follow the reset directly. */
  lemma ResetThenAbsorb(m: Machine, r: Result)
    requires WordsInv(ResetDraft(m).(phase := Listening)) && TrimSpace(r.text) != ""
    ensures WordsInv(AbsorbAsSpeech(ResetDraft(m), r).(phase := Listening))
  {
    hide Watched, BookStep, ProtoStep, CalmStep, LineStep, ResetDraft, WordsInv, TrimSpace;
    var m1 := ResetDraft(m).(phase := Listening);
    AbsorbKeepsWords(m1, r);
    assert AbsorbAsSpeech(ResetDraft(m), r).(phase := Listening) == AbsorbAsSpeech(m1, r).(phase := Listening);
  }

  lemma SttKeepsWords(c: Config, m: Machine, r: Result, env: Env)
    requires WordsInv(m)
    ensures WordsInv(OnStt(c, m, r, env))
  {
    hide Watched, ProtoStep, CalmStep, LineStep, ConfirmBargeIn, IsBackchannel, RealTextLen, CancelTurn,
      AbsorbAsSpeech, SetState, TrimSpace;
    var m1 := SwitchLocale(m, r);
    assert Untouched(m, m1) && m1.phase == m.phase;
    if TrimSpace(r.text) != "" {
      var m2 := Emit(m1, Heard);
      if m.phase == Listening || m.phase == Endpointing {
        AbsorbKeepsWords(m2, r);
        SetStateUntouched(AbsorbAsSpeech(m2, r), Listening);
      } else if m.phase == Thinking {
        CancelUntouched(m2);
        SetStateUntouched(CancelTurn(m2), Listening);
        AbsorbKeepsWords(Rethink(m2), r);
      } else {
        BargeInKeepsWords(c, m2, r, env);
        UnduckUntouched(m2);
      }
    }
  }

  lemma UnduckUntouched(m: Machine)
    ensures Untouched(m, Unduck(m)) && Unduck(m).phase == m.phase
  {
    hide Watched, ProtoStep, CalmStep, LineStep;
  }

  lemma ChunkKeepsWords(c: Config, m: Machine, chunk: Playout.Chunk, env: Env)
    requires WordsInv(m) && Inv(c, m) && m.reply.ttsCh.Some? && m.reply.tracker.Some?
    ensures WordsInv(OnChunk(m, chunk, env))
  {
    hide Watched, ProtoStep, CalmStep, LineStep, Report, Playout.Extend;
    var m1 := BeginSpeaking(m);
    var m2 := Emit(m1, ChunkWritten(m.reply.ttsCh.value, chunk.durationMs, env.writeOk))
              .(reply := m1.reply.(tracker := Some(Playout.Extend(m1.reply.tracker.value, chunk))));
    ReportUntouched(m2, env.writeOk, "playback");
  }

  lemma FillerKeepsWords(m: Machine, env: Env)
    requires WordsInv(m)
    ensures WordsInv(OnFiller(m, env))
  {
    hide Watched, ProtoStep, CalmStep, LineStep, WriteClip;
    if m.phase == Thinking && env.clip.Some? {
      WriteClipUntouched(m.(reply := m.reply.(fillerC := false)), env.clip.value, env);
    }
  }

  lemma StepKeepsWords(c: Config, m: Machine, i: Input)
    requires Inv(c, m) && WordsInv(m)
    ensures WordsInv(Step(c, m, i))
  {
    hide Watched, BookStep, ProtoStep, CalmStep, LineStep, OnFrame, OnStt, OnChunk, OnFiller, CompleteAgentTurn;
    if Enabled(m, i) && !Faults(m, i) {
      match i
      case Frame(loud, env) => FrameKeepsWords(c, m, loud, env);
      case Stt(r, env) => SttKeepsWords(c, m, r, env);
      case SttClosed =>
      case TtsChunk(chunk, env) => ChunkKeepsWords(c, m, chunk, env);
      case TtsClosed => if m.phase == Thinking {
        CompleteKeepsWords(c, m.(reply := m.reply.(ttsCh := None, ttsDone := true)));
      }
      case FillerFired(env) => FillerKeepsWords(m, env);
    }
  }

  lemma {:induction false} RunKeepsWords(c: Config, inputs: seq<Input>)
    ensures WordsInv(Run(c, inputs))
  {
    if inputs != [] {
      var before := inputs[..|inputs| - 1];
      RunKeepsWords(c, before);
      RunKeeps(c, before);
      StepKeepsWords(c, Run(c, before), inputs[|inputs| - 1]);
    }
  }

  // --- what it means for the log

  /** The finals the machine took in, in order. */
  function Finals(log: seq<Act>): seq<string> {
    if log == [] then []
    else
      var last := log[|log| - 1];
      Finals(log[..|log| - 1]) + if last.Absorbed? && last.isFinal then [last.text] else []
  }

  function Flatten(epochs: seq<Epoch>): seq<string> {
    if epochs == [] then [] else Flatten(epochs[..|epochs| - 1]) + epochs[|epochs| - 1].finals
  }

  lemma {:induction false} BookHoldsAllFinals(log: seq<Act>)
    ensures var b := Watched(log).book; Finals(log) == Flatten(b.closed) + b.current
  {
    hide BookAllows, ProtoStep, CalmStep, LineStep;
    if log != [] {
      BookHoldsAllFinals(log[..|log| - 1]);
      FinalsStep(Watched(log[..|log| - 1]).book, log[|log| - 1]);
      hide BookStep;
    }
  }

  /** What one act adds to the finals in the book. */
  lemma FinalsStep(b: Book, a: Act)
    ensures var c := BookStep(b, a);
            Flatten(c.closed) + c.current
            == Flatten(b.closed) + b.current + if a.Absorbed? && a.isFinal then [a.text] else []
  {
    hide BookAllows;
    var c := BookStep(b, a);
    if a.DraftReset? { assert c.closed[..|c.closed| - 1] == b.closed; }
  }

  /** Every final the machine took in during any run is, in order, in the user turn delivered
      for its epoch or in the current draft. */
  lemma WordsAreConserved(c: Config, inputs: seq<Input>)
    ensures var m := Run(c, inputs);
            var b := m.seen.book;
            && Finals(m.seen.log) == Flatten(b.closed) + b.current
            && (forall e :: e in b.closed ==> Embeds(e.finals, e.delivered))
            && Embeds(b.current, Draft(m.words))
  {
    RunKeepsWords(c, inputs);
    var m := Run(c, inputs);
    BookHoldsAllFinals(m.seen.log);
    DraftEmbeds(m.words, m.seen.book.current);
    forall e | e in m.seen.book.closed ensures Embeds(e.finals, e.delivered) {
      assert Kept(e);
    }
  }

  lemma {:induction false} BookPrefixOk(log: seq<Act>, n: nat)
    requires n <= |log| && Watched(log).book.ok
    ensures Watched(log[..n]).book.ok
    decreases |log|
  {
    hide BookAllows, ProtoStep, CalmStep, LineStep;
    if n < |log| {
      BookPrefixOk(log[..|log| - 1], n);
      assert log[..|log| - 1][..n] == log[..n];
    } else {
      assert log[..n] == log;
    }
  }

  lemma {:induction false} DeliveredSince(log: seq<Act>, i: nat)
    requires i < |log| && log[i].UserTurn?
    requires forall k :: i < k < |log| ==> !log[k].UserTurn? && !log[k].DraftReset?
    ensures Watched(log).book.delivered == Some(log[i].text)
    decreases |log|
  {
    if i < |log| - 1 {
      DeliveredSince(log[..|log| - 1], i);
    }
  }

  lemma NextTurnStartsWithLast(log: seq<Act>, i: nat, j: nat)
    requires Watched(log).book.ok && i < j < |log| && log[i].UserTurn? && log[j].UserTurn?
    requires forall k :: i < k < j ==> !log[k].UserTurn? && !log[k].DraftReset?
    ensures log[i].text <= log[j].text
  {
    hide Watched;
    BookAt(log, j);
    DeliveredSince(log[..j], i);
  }

  lemma BookAt(log: seq<Act>, j: nat)
    requires j < |log| && Watched(log).book.ok
    ensures BookStep(Watched(log[..j]).book, log[j]).ok
  {
    hide BookStep, ProtoStep, CalmStep, LineStep;
    BookPrefixOk(log, j + 1);
    var p := log[..j + 1];
    assert p[..j] == log[..j] && p[j] == log[j];
    assert Watched(p).book == BookStep(Watched(p[..j]).book, p[j]);
  }

  /** A user turn whose reply was cancelled by more speech or failed (no reset since) is a
      prefix of the next user turn: the agent is never handed less than before. */
  lemma CancelledTurnIsPrefixOfNext(c: Config, inputs: seq<Input>, i: nat, j: nat)
    requires var log := Run(c, inputs).seen.log;
             && i < j < |log| && log[i].UserTurn? && log[j].UserTurn?
             && forall k :: i < k < j ==> !log[k].UserTurn? && !log[k].DraftReset?
    ensures var log := Run(c, inputs).seen.log; log[i].text <= log[j].text
  {
    hide Run, Watch;
    RunKeepsWords(c, inputs);
    NextTurnStartsWithLast(Run(c, inputs).seen.log, i, j);
  }
}
