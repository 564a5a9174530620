/** Endpointing: a user turn fires exactly when the pause is long enough, never earlier, and
    under quiet input it fires within a fixed number of frames. */
module TurnCalm {
  import opened Common
  import opened Text
  import opened Endpoint
  import opened TurnWatch
  import opened TurnModel
  import opened TurnProtocol
  import Meter
  import Playout

  function Wait(c: Config, text: string, locale: Locale): int {
    WaitForMs(c.lexicon, text, locale, c.delays)
  }

  /** The machine's own pause: media time since `lastSpeechMs`. */
  function Pause(k: Clock): int { k.mediaMs - k.lastSpeechMs }

  ghost predicate ClockInv(k: Clock) {
    k.prevSpeaking == k.meter.speaking && 0 <= k.meter.quiet && k.lastSpeechMs <= k.mediaMs
  }

  ghost predicate OnTime(c: Config, f: Fired) { f.quietMs >= Wait(c, f.text, f.locale) }

  /** The observed quiet time never exceeds the machine's pause, and equals it whenever a
      draft is being collected. */
  ghost predicate CalmInv(c: Config, m: Machine) {
    && ClockInv(m.clock)
    && m.seen.calm.quietMs <= Pause(m.clock)
    && ((m.phase == Listening || m.phase == Endpointing) && Draft(m.words) != "" ==>
          m.seen.calm.quietMs == Pause(m.clock))
    && (m.phase == Endpointing ==> Draft(m.words) != "" && !m.clock.prevSpeaking)
    && forall f :: f in m.seen.calm.fired ==> OnTime(c, f)
  }

  /** Clock, words and quiet time are as before. */
  ghost predicate Still(m: Machine, r: Machine) {
    r.clock == m.clock && r.words == m.words && r.seen.calm == m.seen.calm
  }

  lemma ReportStill(m: Machine, ok: bool, stage: string)
    ensures var r := Report(m, ok, stage); Still(m, r) && r.phase == m.phase && r.locale == m.locale
  {
    hide Watched, ProtoStep, BookStep, LineStep;
  }

  lemma CancelStill(m: Machine)
    ensures Still(m, CancelTurn(m)) && CancelTurn(m).phase == m.phase
  {
    hide Watched, ProtoStep, BookStep, LineStep;
  }

  lemma SetStateStill(m: Machine, s: Phase)
    ensures Still(m, SetState(m, s)) && SetState(m, s).phase == s
  {
    hide Watched, ProtoStep, BookStep, LineStep;
  }

  lemma WriteClipStill(m: Machine, ms: nat, env: Env)
    ensures Still(m, WriteClip(m, ms, env)) && WriteClip(m, ms, env).phase == m.phase
  {
    hide Watched, ProtoStep, BookStep, LineStep, Report;
    ReportStill(Emit(m, ClipWritten(ms, env.writeOk)), env.writeOk, "playback");
  }

  lemma FailTurnStill(m: Machine, env: Env)
    ensures Still(m, FailTurn(m, env)) && FailTurn(m, env).phase == Listening
  {
    hide Watched, ProtoStep, BookStep, CalmStep, LineStep, CancelTurn, WriteClip, SetState;
    CancelStill(m);
    var m1 := CancelTurn(m);
    if env.clip.Some? {
      WriteClipStill(m1, env.clip.value, env);
    }
    SetStateStill(if env.clip.Some? then WriteClip(m1, env.clip.value, env) else m1, Listening);
  }

  lemma BeginThinkingStill(c: Config, m: Machine)
    ensures Still(m, BeginThinking(c, m)) && BeginThinking(c, m).phase == Thinking
  {
    hide Watched, ProtoStep, BookStep, LineStep;
  }

  lemma StartStill(c: Config, m: Machine, env: Env)
    ensures var r := StartAgentTurn(c, m, env);
            Still(m, r) && (r.phase == Listening || r.phase == Thinking)
  {
    hide Watched, ProtoStep, BookStep, LineStep, FailTurn, BeginThinking;
    var m1 := OpenReply(m);
    FailTurnStill(Emit(m1, Failed("agent")), env);
    FailTurnStill(Emit(m1, Failed("tts")), env);
    BeginThinkingStill(c, m1);
  }

  lemma AdvanceCalm(c: Config, m: Machine, loud: bool, env: Env)
    requires ClockInv(m.clock)
    ensures var r := Advance(c, m, loud, env);
            && r.phase == m.phase && r.words == m.words && r.locale == m.locale && ClockInv(r.clock)
            && r.clock.meter == Meter.Next(c.onsetFrames, c.hangover, m.clock.meter, loud)
            && r.seen.calm.fired == m.seen.calm.fired
            && (if r.clock.prevSpeaking then Pause(r.clock) == 0 && r.seen.calm.quietMs == 0
                else Pause(r.clock) == Pause(m.clock) + 20 && r.seen.calm.quietMs == m.seen.calm.quietMs + 20)
  {
    hide Watched, ProtoStep, BookStep, LineStep, Report;
    ReportStill(m, env.sttOk, "stt");
  }

  /** In the endpointing state a quiet frame delivers the draft exactly when the pause has
      reached the wait for that draft. */
  lemma FinalizeCalm(c: Config, m: Machine, env: Env)
    requires Draft(m.words) != ""
    ensures var r := FinalizeUserTurn(c, m, env);
            && r.clock == m.clock && (r.phase == Listening || r.phase == Thinking)
            && r.seen.calm == m.seen.calm.(fired := m.seen.calm.fired
                                 + [Fired(Draft(m.words), m.locale, m.seen.calm.quietMs)])
            && r.words == Words(Draft(m.words), [], "")
  {
    hide Watched, ProtoStep, BookStep, LineStep, StartAgentTurn, Draft;
    StartStill(c, DeliverUserTurn(m, Draft(m.words)), env);
  }

  lemma CompleteCalm(c: Config, m: Machine)
    ensures var r := CompleteAgentTurn(c, m);
            && r.clock == m.clock && r.seen.calm == m.seen.calm && r.phase == Listening
            && r.words == Words("", [], "")
  {
    hide Watched, ProtoStep, BookStep, LineStep, CancelTurn, SetState, Playout.SpokenBy;
    CancelStill(m);
    var text := if m.reply.tracker.Some?
                then Playout.SpokenBy(m.reply.tracker.value, PlayedMs(m) + c.playoutOffsetMs).0 else "";
    SetStateStill(ResetDraft(Emit(CancelTurn(m), AgentTurn(text, false))), Listening);
  }

  lemma DuckingStill(c: Config, m: Machine, onset: bool)
    ensures var r := UnduckWhenUnconfirmed(c, DuckOnOnset(m, onset)); Still(m, r) && r.phase == m.phase
  {
    hide Watched, ProtoStep, BookStep, LineStep;
  }

  lemma EmptyDraft()
    ensures Draft(Words("", [], "")) == ""
  {}

  lemma FrameCalm(c: Config, m: Machine, loud: bool, env: Env)
    requires CalmInv(c, m)
    ensures CalmInv(c, OnFrame(c, m, loud, env))
  {
    hide Watched, ProtoStep, BookStep, CalmStep, LineStep, Advance, FinalizeUserTurn, CompleteAgentTurn,
      DuckOnOnset, UnduckWhenUnconfirmed, CancelTurn, Draft, WaitForMs, SetState;
    AdvanceCalm(c, m, loud, env);
    var m1 := Advance(c, m, loud, env);
    EmptyDraft();
    match m.phase
    case Listening => SetStateStill(m1, Endpointing);
    case Endpointing =>
      SetStateStill(m1, Listening);
      FinalizeCalm(c, m1, env);
    case Thinking =>
      CancelStill(m1);
      SetStateStill(CancelTurn(m1), Listening);
    case Speaking =>
      var onset := m1.clock.prevSpeaking && !m.clock.prevSpeaking;
      DuckingStill(c, m1, onset);
      CompleteCalm(c, UnduckWhenUnconfirmed(c, DuckOnOnset(m1, onset)));
  }

  lemma AbsorbCalm(m: Machine, r: Result)
    requires m.seen.calm.quietMs == 0
    ensures var s := AbsorbAsSpeech(m, r);
            && s.clock == m.clock.(lastSpeechMs := m.clock.mediaMs) && s.seen.calm == m.seen.calm
            && s.phase == m.phase
  {
    hide Watched, ProtoStep, BookStep, LineStep, TrimSpace;
  }

  lemma CutStill(m: Machine, env: Env)
    ensures var r := Unduck(FlushLine(CancelTurn(m), env)); Still(m, r) && r.phase == m.phase
  {
    hide Watched, ProtoStep, BookStep, LineStep, CancelTurn, Report;
    CancelStill(m);
    ReportStill(Emit(CancelTurn(m), Flushed(env.flushOk)), env.flushOk, "playback");
  }

  lemma BargeInCalm(c: Config, m: Machine, r: Result, env: Env)
    requires CalmInv(c, m) && m.seen.calm.quietMs == 0
    ensures CalmInv(c, ConfirmBargeIn(m, r, env))
  {
    hide Watched, ProtoStep, BookStep, LineStep, CancelTurn, FlushLine, Unduck, InterruptedText,
      AbsorbAsSpeech, SetState, Draft;
    CutStill(m, env);
    var m1 := Unduck(FlushLine(CancelTurn(m), env));
    var m2 := ResetDraft(Emit(Emit(m1, AgentTurn(InterruptedText(m), true)), BargeIn(r.text)));
    AbsorbCalm(m2, r);
    SetStateStill(AbsorbAsSpeech(m2, r), Listening);
  }

  lemma SwitchLocaleStill(m: Machine, r: Result)
    ensures Still(m, SwitchLocale(m, r)) && SwitchLocale(m, r).phase == m.phase
  {
    hide Watched, ProtoStep, BookStep, LineStep;
  }

  lemma SttCalm(c: Config, m: Machine, r: Result, env: Env)
    requires CalmInv(c, m)
    ensures CalmInv(c, OnStt(c, m, r, env))
  {
    hide Watched, ProtoStep, BookStep, LineStep, ConfirmBargeIn, IsBackchannel, RealTextLen, CancelTurn,
      AbsorbAsSpeech, SetState, TrimSpace, Draft, SwitchLocale, Unduck;
    SwitchLocaleStill(m, r);
    var m2 := Emit(SwitchLocale(m, r), Heard);
    AbsorbCalm(m2, r);
    SetStateStill(AbsorbAsSpeech(m2, r), Listening);
    CancelStill(m2);
    SetStateStill(CancelTurn(m2), Listening);
    AbsorbCalm(Rethink(m2), r);
    if m.phase == Speaking {
      assert CalmInv(c, m2);
      BargeInCalm(c, m2, r, env);
      UnduckStill(m2);
    }
  }

  lemma UnduckStill(m: Machine)
    ensures Still(m, Unduck(m)) && Unduck(m).phase == m.phase
  {
    hide Watched, ProtoStep, BookStep, LineStep;
  }

  lemma ChunkStill(m: Machine, chunk: Playout.Chunk, env: Env)
    requires m.reply.ttsCh.Some? && m.reply.tracker.Some?
    ensures var r := OnChunk(m, chunk, env);
            Still(m, r) && r.phase == if m.phase == Thinking then Speaking else m.phase
  {
    hide Watched, ProtoStep, BookStep, LineStep, Report, Playout.Extend;
    var m1 := BeginSpeaking(m);
    var m2 := Emit(m1, ChunkWritten(m.reply.ttsCh.value, chunk.durationMs, env.writeOk))
              .(reply := m1.reply.(tracker := Some(Playout.Extend(m1.reply.tracker.value, chunk))));
    ReportStill(m2, env.writeOk, "playback");
  }

  lemma FillerStill(m: Machine, env: Env)
    ensures Still(m, OnFiller(m, env)) && OnFiller(m, env).phase == m.phase
  {
    hide Watched, ProtoStep, BookStep, LineStep, WriteClip;
    if m.phase == Thinking && env.clip.Some? {
      WriteClipStill(m.(reply := m.reply.(fillerC := false)), env.clip.value, env);
    }
  }

  lemma StepCalm(c: Config, m: Machine, i: Input)
    requires CalmInv(c, m)
    ensures CalmInv(c, Step(c, m, i))
  {
    hide Watched, ProtoStep, BookStep, CalmStep, LineStep, OnFrame, OnStt, OnChunk, OnFiller,
      CompleteAgentTurn, Draft, WaitForMs;
    if Enabled(m, i) && !Faults(m, i) {
      match i
      case Frame(loud, env) => FrameCalm(c, m, loud, env);
      case Stt(r, env) => SttCalm(c, m, r, env);
      case SttClosed =>
      case TtsChunk(chunk, env) => ChunkStill(m, chunk, env);
      case TtsClosed => if m.phase == Thinking {
        CompleteCalm(c, m.(reply := m.reply.(ttsCh := None, ttsDone := true)));
        EmptyDraft();
      }
      case FillerFired(env) => FillerStill(m, env);
    }
  }

  /** No user turn of any run fires before its wait: since the last speaking frame and the
      last recognizer text at least `waitForMs` of the delivered text have passed. */
  lemma {:induction false} NeverFiresEarly(c: Config, inputs: seq<Input>)
    ensures CalmInv(c, Run(c, inputs))
    ensures forall f :: f in Run(c, inputs).seen.calm.fired ==>
              f.quietMs >= WaitForMs(c.lexicon, f.text, f.locale, c.delays)
  {
    hide WaitForMs, Draft;
    if inputs != [] {
      NeverFiresEarly(c, inputs[..|inputs| - 1]);
      StepCalm(c, Run(c, inputs[..|inputs| - 1]), inputs[|inputs| - 1]);
    } else {
      EmptyDraft();
    }
    forall f | f in Run(c, inputs).seen.calm.fired
      ensures f.quietMs >= WaitForMs(c.lexicon, f.text, f.locale, c.delays)
    {
      assert OnTime(c, f);
    }
  }

  // --- exactly when, and how soon

  /** One frame of silence from the caller. */
  function QuietFrame(c: Config, m: Machine, env: Env): Machine { OnFrame(c, m, false, env) }

  /** While a draft is collected, a quiet frame fires the user turn exactly when the machine
      is endpointing and the quiet time including this frame reaches the wait; otherwise the
      draft is kept. */
  lemma FiresExactlyAtWait(c: Config, m: Machine, env: Env)
    requires CalmInv(c, m) && Draft(m.words) != "" && (m.phase == Listening || m.phase == Endpointing)
    ensures var r, text := QuietFrame(c, m, env), Draft(m.words);
            if m.phase == Endpointing && m.seen.calm.quietMs + 20 >= Wait(c, text, m.locale) then
              r.seen.calm.fired == m.seen.calm.fired + [Fired(text, m.locale, m.seen.calm.quietMs + 20)]
            else
              && r.seen.calm.fired == m.seen.calm.fired
              && r.words == m.words && r.locale == m.locale
              && r.phase == (if r.clock.prevSpeaking then Listening else Endpointing)
              && r.clock.meter == Meter.Next(c.onsetFrames, c.hangover, m.clock.meter, false)
              && r.seen.calm.quietMs == (if r.clock.prevSpeaking then 0 else m.seen.calm.quietMs + 20)
  {
    hide Watched, ProtoStep, BookStep, CalmStep, LineStep, Advance, FinalizeUserTurn, CompleteAgentTurn,
      Draft, WaitForMs, SetState;
    AdvanceCalm(c, m, false, env);
    var m1 := Advance(c, m, false, env);
    SetStateStill(m1, Endpointing);
    SetStateStill(m1, Listening);
    SetStateLocale(m1, Endpointing);
    FinalizeCalm(c, m1, env);
  }

  lemma SetStateLocale(m: Machine, s: Phase)
    ensures SetState(m, s).locale == m.locale
  {}

  function CeilFrames(ms: int): int { (ms + 19) / 20 }

  /** Quiet frames left until the detector stops reporting speech. */
  function HangoverLeft(c: Config, m: Machine): int {
    if m.clock.prevSpeaking then Max(1, c.hangover - m.clock.meter.quiet) else 1
  }

  /** An upper bound on the quiet frames left until the user turn fires. */
  function FramesLeft(c: Config, m: Machine): int {
    var w := Wait(c, Draft(m.words), m.locale);
    if m.phase == Endpointing then Max(1, CeilFrames(w - m.seen.calm.quietMs))
    else HangoverLeft(c, m) + Max(1, CeilFrames(w - 20))
  }

  function QuietFrames(c: Config, m: Machine, envs: seq<Env>): Machine
    decreases |envs|
  {
    hide QuietFrame;
    if envs == [] then m else QuietFrames(c, QuietFrame(c, m, envs[0]), envs[1..])
  }

  ghost predicate FiresWithin(c: Config, m: Machine, envs: seq<Env>, text: string, locale: Locale) {
    exists n: nat :: n <= |envs| && FiredBy(c, m, envs[..n], text, locale)
  }

  ghost predicate FiredBy(c: Config, m: Machine, envs: seq<Env>, text: string, locale: Locale) {
    var before, after := m.seen.calm.fired, QuietFrames(c, m, envs).seen.calm.fired;
    |after| == |before| + 1 && after[|before|].text == text && after[|before|].locale == locale
  }

  lemma QuietFrameCountsDown(c: Config, m: Machine, env: Env)
    requires CalmInv(c, m) && Draft(m.words) != "" && (m.phase == Listening || m.phase == Endpointing)
    requires m.phase == Listening || m.seen.calm.quietMs + 20 < Wait(c, Draft(m.words), m.locale)
    ensures var r := QuietFrame(c, m, env);
            && r.words == m.words && r.locale == m.locale && r.seen.calm.fired == m.seen.calm.fired
            && CalmInv(c, r) && (r.phase == Listening || r.phase == Endpointing)
            && FramesLeft(c, r) < FramesLeft(c, m)
  {
    hide Watched, ProtoStep, BookStep, CalmStep, LineStep, QuietFrame, Draft, WaitForMs;
    FiresExactlyAtWait(c, m, env);
    FrameCalm(c, m, false, env);
    assert QuietFrame(c, m, env) == OnFrame(c, m, false, env) by { QuietFrameIs(c, m, env); }
  }

  lemma QuietFrameIs(c: Config, m: Machine, env: Env)
    ensures QuietFrame(c, m, env) == OnFrame(c, m, false, env)
  {
    hide OnFrame;
  }

  /** From a state with a draft, quiet input fires that draft within `FramesLeft` frames. */
  lemma {:induction false} FiresUnderQuietInput(c: Config, m: Machine, envs: seq<Env>)
    requires CalmInv(c, m) && Draft(m.words) != "" && (m.phase == Listening || m.phase == Endpointing)
    requires FramesLeft(c, m) <= |envs|
    ensures FiresWithin(c, m, envs, Draft(m.words), m.locale)
    decreases |envs|
  {
    hide QuietFrame, Draft, WaitForMs, CalmInv;
    var r := QuietFrame(c, m, envs[0]);
    if m.phase == Endpointing && m.seen.calm.quietMs + 20 >= Wait(c, Draft(m.words), m.locale) {
      FiresExactlyAtWait(c, m, envs[0]);
      assert QuietFrames(c, m, envs[..1]) == r by {
        assert envs[..1][1..] == [];
      }
      assert FiredBy(c, m, envs[..1], Draft(m.words), m.locale);
    } else {
      QuietFrameCountsDown(c, m, envs[0]);
      FiresUnderQuietInput(c, r, envs[1..]);
      var n: nat :| n <= |envs| - 1 && FiredBy(c, r, envs[1..][..n], Draft(m.words), m.locale);
      assert envs[..n + 1][0] == envs[0] && envs[..n + 1][1..] == envs[1..][..n];
      assert FiredBy(c, m, envs[..n + 1], Draft(m.words), m.locale);
    }
  }

  /** In any run that is listening with a draft, silence ends the caller's turn within
      hangover + wait/20 (rounded up) + 1 frames. */
  lemma SilenceEndsTurn(c: Config, inputs: seq<Input>, envs: seq<Env>)
    requires var m := Run(c, inputs);
             && m.phase == Listening && Draft(m.words) != ""
             && |envs| >= Max(1, c.hangover) + Max(0, CeilFrames(Wait(c, Draft(m.words), m.locale))) + 1
    ensures var m := Run(c, inputs); FiresWithin(c, m, envs, Draft(m.words), m.locale)
  {
    hide Draft, WaitForMs, Run;
    NeverFiresEarly(c, inputs);
    FiresUnderQuietInput(c, Run(c, inputs), envs);
  }

  // --- a failed reply leaves the caller's text in the draft

  lemma StartFails(c: Config, m: Machine, env: Env)
    requires !env.agentOk || !env.speakOk
    ensures StartAgentTurn(c, m, env).phase == Listening && StartAgentTurn(c, m, env).locale == m.locale
  {
    hide Watched, ProtoStep, BookStep, CalmStep, LineStep;
  }

  lemma FinalizeFails(c: Config, m: Machine, env: Env)
    requires Draft(m.words) != "" && (!env.agentOk || !env.speakOk)
    ensures var r := FinalizeUserTurn(c, m, env); r.phase == Listening && r.locale == m.locale
  {
    hide Watched, ProtoStep, BookStep, CalmStep, LineStep, StartAgentTurn, Draft;
    StartFails(c, DeliverUserTurn(m, Draft(m.words)), env);
  }

  lemma DraftOfDelivered(w: Words)
    ensures Draft(Words(Draft(w), [], "")) == Draft(w)
  {
    TrimSpaceTidy(Join(Parts(w)));
    TrimSpaceTidy(Draft(w));
  }

  /** When the agent or the synthesizer fails to start, the delivered text stays in the draft,
      so silence delivers the same user turn once more. */
  lemma FailedTurnFiresAgain(c: Config, inputs: seq<Input>, env: Env, envs: seq<Env>)
    requires var m := Run(c, inputs);
             && m.phase == Endpointing && m.seen.calm.quietMs + 20 >= Wait(c, Draft(m.words), m.locale)
             && |envs| >= Max(1, c.hangover) + Max(0, CeilFrames(Wait(c, Draft(m.words), m.locale))) + 1
    requires !env.agentOk || !env.speakOk
    ensures var m := Run(c, inputs);
            var r := QuietFrame(c, m, env);
            && r.seen.calm.fired
               == m.seen.calm.fired + [Fired(Draft(m.words), m.locale, m.seen.calm.quietMs + 20)]
            && FiresWithin(c, r, envs, Draft(m.words), m.locale)
  {
    hide Watched, ProtoStep, BookStep, CalmStep, LineStep, Advance, FinalizeUserTurn, Draft, WaitForMs,
      SetState, Run;
    NeverFiresEarly(c, inputs);
    var m := Run(c, inputs);
    FiresExactlyAtWait(c, m, env);
    FrameCalm(c, m, false, env);
    AdvanceCalm(c, m, false, env);
    var m1 := Advance(c, m, false, env);
    FinalizeCalm(c, m1, env);
    FinalizeFails(c, m1, env);
    DraftOfDelivered(m.words);
    FiresUnderQuietInput(c, QuietFrame(c, m, env), envs);
  }
}
