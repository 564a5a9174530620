/** Ducking outlives a natural completion: when exactly, and a run that shows it. */
module TurnDucking {
  import opened Common
  import opened Text
  import opened Playout
  import opened Endpoint
  import opened TurnWatch
  import opened TurnModel
  import opened TurnProtocol
  import Meter

  /** A frame that completes the agent's turn leaves the line ducked exactly when it was
      ducked before or this frame is a speech onset, and the confirmation window is not over. */
  lemma CompletionLeavesDuckedIff(c: Config, m: Machine, loud: bool, env: Env)
    requires Inv(c, m) && m.phase == Speaking && OnFrame(c, m, loud, env).phase == Listening
    ensures var k := AdvanceClock(c, m.clock, loud);
            var since := if m.volume.ducked then m.volume.duckStartMs else k.mediaMs;
            OnFrame(c, m, loud, env).volume.ducked <==>
              && (m.volume.ducked || (k.prevSpeaking && !m.clock.prevSpeaking))
              && k.mediaMs - since < c.confirmWindowMs
  {
    hide Watched, ProtoStep, BookStep, CalmStep, LineStep, AdvanceClock, CompleteAgentTurn, Report;
    var m1 := Advance(c, m, loud, env);
    ReportKeeps(m, env.sttOk, "stt");
    var onset := m1.clock.prevSpeaking && !m.clock.prevSpeaking;
    CompleteVolume(c, UnduckWhenUnconfirmed(c, DuckOnOnset(m1, onset)));
  }

  lemma CompleteVolume(c: Config, m: Machine)
    ensures CompleteAgentTurn(c, m).volume == m.volume
  {
    hide Watched, ProtoStep, BookStep, CalmStep, LineStep, SpokenBy;
  }

  // --- over whole runs

  /** The step that ends a stay in speaking is a frame that completes the reply inside the
      confirmation window. */
  ghost predicate EndsDucked(c: Config, m: Machine, i: Input) {
    i.Frame? &&
    var k := AdvanceClock(c, m.clock, i.loud);
    var since := if m.volume.ducked then m.volume.duckStartMs else k.mediaMs;
    (m.volume.ducked || (k.prevSpeaking && !m.clock.prevSpeaking)) && k.mediaMs - since < c.confirmWindowMs
  }

  lemma ReportVolume(m: Machine, ok: bool, stage: string)
    ensures Report(m, ok, stage).volume == m.volume
  {}

  lemma FailTurnVolume(m: Machine, env: Env)
    ensures FailTurn(m, env).volume == m.volume
  {
    hide Watched, ProtoStep, BookStep, CalmStep, LineStep;
  }

  lemma FinalizeVolume(c: Config, m: Machine, env: Env)
    ensures FinalizeUserTurn(c, m, env).volume == m.volume
    ensures var p := FinalizeUserTurn(c, m, env).phase; p == Listening || p == Thinking
  {
    hide Watched, ProtoStep, BookStep, CalmStep, LineStep, FailTurn, Draft;
    var m1 := OpenReply(DeliverUserTurn(m, Draft(m.words)));
    FailTurnVolume(Emit(m1, Failed("agent")), env);
    FailTurnVolume(Emit(m1, Failed("tts")), env);
    FailTurnPhase(Emit(m1, Failed("agent")), env);
    FailTurnPhase(Emit(m1, Failed("tts")), env);
  }

  lemma FailTurnPhase(m: Machine, env: Env)
    ensures FailTurn(m, env).phase == Listening
  {
    hide Watched, ProtoStep, BookStep, CalmStep, LineStep;
  }

  lemma FrameVolume(c: Config, m: Machine, loud: bool, env: Env)
    requires m.phase != Speaking
    ensures OnFrame(c, m, loud, env).volume == m.volume && OnFrame(c, m, loud, env).phase != Speaking
  {
    hide Watched, ProtoStep, BookStep, CalmStep, LineStep, FinalizeUserTurn, Draft, WaitForMs, AdvanceClock, Report;
    ReportVolume(m, env.sttOk, "stt");
    ReportKeeps(m, env.sttOk, "stt");
    FinalizeVolume(c, Advance(c, m, loud, env), env);
  }

  lemma SttVolume(c: Config, m: Machine, r: Result, env: Env)
    requires m.phase != Speaking
    ensures OnStt(c, m, r, env).volume == m.volume
    ensures OnStt(c, m, r, env).phase != Speaking
  {
    hide Watched, ProtoStep, BookStep, CalmStep, LineStep, TrimSpace, IsBackchannel;
  }

  lemma ChunkVolume(m: Machine, chunk: Chunk, env: Env)
    requires m.reply.ttsCh.Some? && m.reply.tracker.Some?
    ensures OnChunk(m, chunk, env).volume == m.volume
    ensures m.phase == Speaking ==> OnChunk(m, chunk, env).phase == Speaking
  {
    hide Watched, ProtoStep, BookStep, CalmStep, LineStep, Extend;
  }

  lemma FillerVolume(m: Machine, env: Env)
    ensures OnFiller(m, env).volume == m.volume && OnFiller(m, env).phase == m.phase
  {
    hide Watched, ProtoStep, BookStep, CalmStep, LineStep;
  }

  lemma ClosedVolume(c: Config, m: Machine)
    ensures OnTtsClosed(c, m).volume == m.volume
    ensures m.phase == Speaking ==> OnTtsClosed(c, m).phase == Speaking
  {
    hide Watched, ProtoStep, BookStep, CalmStep, LineStep, CompleteAgentTurn;
    CompleteVolume(c, m.(reply := m.reply.(ttsCh := None, ttsDone := true)));
  }

  /** Outside speaking no step touches the volume. */
  lemma VolumeOutsideSpeaking(c: Config, m: Machine, i: Input)
    requires m.phase != Speaking
    ensures Step(c, m, i).volume == m.volume
  {
    hide Watched, ProtoStep, BookStep, CalmStep, LineStep, OnFrame, OnStt, OnChunk, OnFiller, OnTtsClosed;
    if Enabled(m, i) && !Faults(m, i) {
      match i
      case Frame(loud, env) => FrameVolume(c, m, loud, env);
      case Stt(r, env) => SttVolume(c, m, r, env);
      case SttClosed =>
      case TtsChunk(chunk, env) => ChunkVolume(m, chunk, env);
      case TtsClosed => ClosedVolume(c, m);
      case FillerFired(env) => FillerVolume(m, env);
    }
  }

  lemma BargeInUnducks(m: Machine, r: Result, env: Env)
    ensures !ConfirmBargeIn(m, r, env).volume.ducked
  {
    hide Watched, ProtoStep, BookStep, CalmStep, LineStep, InterruptedText, CancelTurn, FlushLine;
  }

  /** A stay in speaking ends ducked exactly by a frame that completes inside the window. */
  lemma LeavingSpeaking(c: Config, m: Machine, i: Input)
    requires Inv(c, m) && m.phase == Speaking && Step(c, m, i).phase != Speaking
    ensures Step(c, m, i).volume.ducked <==> EndsDucked(c, m, i)
  {
    hide Watched, ProtoStep, BookStep, CalmStep, LineStep, OnFrame, OnChunk, OnFiller, OnTtsClosed, ConfirmBargeIn,
      TrimSpace, IsBackchannel, RealTextLen, AdvanceClock;
    match i
    case Frame(loud, env) =>
      StepKeeps(c, m, i);
      SpeakingFrameEnds(c, m, loud, env);
      CompletionLeavesDuckedIff(c, m, loud, env);
    case Stt(r, env) => BargeInUnducks(Emit(SwitchLocale(m, r), Heard), r, env);
    case SttClosed =>
    case TtsChunk(chunk, env) => if m.reply.ttsCh.Some? && m.reply.tracker.Some? { ChunkVolume(m, chunk, env); }
    case TtsClosed => ClosedVolume(c, m);
    case FillerFired(env) => FillerVolume(m, env);
  }

  lemma SpeakingFrameEnds(c: Config, m: Machine, loud: bool, env: Env)
    requires m.phase == Speaking
    ensures OnFrame(c, m, loud, env).phase == Speaking || OnFrame(c, m, loud, env).phase == Listening
  {
    hide Watched, ProtoStep, BookStep, CalmStep, LineStep, AdvanceClock, CompleteAgentTurn, Report;
    ReportKeeps(m, env.sttOk, "stt");
    var m1 := Advance(c, m, loud, env);
    var onset := m1.clock.prevSpeaking && !m.clock.prevSpeaking;
    CompletePhase(c, UnduckWhenUnconfirmed(c, DuckOnOnset(m1, onset)));
  }

  /** Input `n` ended the last stay in speaking. */
  ghost predicate LastEnd(c: Config, inputs: seq<Input>, n: nat) {
    && n < |inputs| && Run(c, inputs[..n]).phase == Speaking
    && forall k :: n < k <= |inputs| ==> Run(c, inputs[..k]).phase != Speaking
  }

  ghost predicate EndedDucked(c: Config, inputs: seq<Input>) {
    exists n: nat :: LastEnd(c, inputs, n) && EndsDucked(c, Run(c, inputs[..n]), inputs[n])
  }

  lemma EndsNow(c: Config, u: seq<Input>, i: Input)
    requires Run(c, u).phase == Speaking && Run(c, u + [i]).phase != Speaking
    ensures EndedDucked(c, u + [i]) <==> EndsDucked(c, Run(c, u), i)
  {
    hide Run, EndsDucked;
    var all, n := u + [i], |u|;
    assert all[..n] == u && all[..n + 1] == all;
    assert LastEnd(c, all, n);
    assert Run(c, all[..n]).phase == Speaking;
    forall k: nat | LastEnd(c, all, k) ensures k == n {}
  }

  lemma LastEndBefore(c: Config, u: seq<Input>, i: Input, n: nat)
    requires Run(c, u).phase != Speaking && Run(c, u + [i]).phase != Speaking
    ensures LastEnd(c, u + [i], n) <==> LastEnd(c, u, n)
  {
    hide Run;
    var all := u + [i];
    assert all[..|u|] == u && u[..|u|] == u && all[..|u| + 1] == all;
    forall k | 0 <= k <= |u| ensures all[..k] == u[..k] {}
    if LastEnd(c, u, n) {
      forall k | n < k <= |all| ensures Run(c, all[..k]).phase != Speaking {
        if k <= |u| { assert Run(c, u[..k]).phase != Speaking; }
      }
    }
    if LastEnd(c, all, n) {
      forall k | n < k <= |u| ensures Run(c, u[..k]).phase != Speaking {
        assert Run(c, all[..k]).phase != Speaking;
      }
    }
  }

  lemma EndedBefore(c: Config, u: seq<Input>, i: Input)
    requires Run(c, u).phase != Speaking && Run(c, u + [i]).phase != Speaking
    ensures EndedDucked(c, u + [i]) <==> EndedDucked(c, u)
  {
    hide Run, EndsDucked, LastEnd;
    var all := u + [i];
    forall n: nat ensures LastEnd(c, all, n) <==> LastEnd(c, u, n) { LastEndBefore(c, u, i, n); }
    forall n: nat | n < |u| ensures all[..n] == u[..n] && all[n] == u[n] {}
    forall n: nat | LastEnd(c, u, n) ensures n < |u| { LastEndIn(c, u, n); }
    if EndedDucked(c, u) {
      var n: nat :| LastEnd(c, u, n) && EndsDucked(c, Run(c, u[..n]), u[n]);
      assert LastEnd(c, all, n);
    }
  }

  lemma LastEndIn(c: Config, u: seq<Input>, n: nat)
    requires LastEnd(c, u, n)
    ensures n < |u|
  {}

  /** Over every run: outside speaking the line is ducked exactly when the last stay in speaking
      was ended by a frame that completed the reply inside the confirmation window. */
  lemma {:induction false} DuckedOutsideSpeakingIff(c: Config, inputs: seq<Input>)
    requires Run(c, inputs).phase != Speaking
    ensures Run(c, inputs).volume.ducked <==> EndedDucked(c, inputs)
  {
    hide Step, EndsDucked;
    if inputs != [] {
      var u, i := inputs[..|inputs| - 1], inputs[|inputs| - 1];
      var m := Run(c, u);
      assert inputs == u + [i] && Run(c, inputs) == Step(c, m, i);
      hide Run, EndedDucked;
      if m.phase == Speaking {
        RunKeeps(c, u);
        LeavingSpeaking(c, m, i);
        EndsNow(c, u, i);
      } else {
        VolumeOutsideSpeaking(c, m, i);
        DuckedOutsideSpeakingIff(c, u);
        EndedBefore(c, u, i);
      }
    }
  }

  const NO_WORDS := Profile({}, {}, {}, {}, {})

  /** No waits, a detector of one frame, a confirmation window of one second. */
  function QuickConfig(): Config {
    Config(Lexicon(NO_WORDS, NO_WORDS, ch => ch, ch => false, ch => false),
           Delays(0, 0, 0, 0, 0), 6, 1000, 0, 1, 1, "en-CA")
  }

  const FINE := Env(true, true, true, None, true, true)

  const TALKED_OVER: seq<Input> := [
    Stt(Result("hi", true, ""), FINE), Frame(false, FINE), Frame(false, FINE),
    TtsChunk(Chunk(20, []), FINE), TtsClosed, Frame(true, FINE)]

  lemma HiIsDraft()
    ensures TrimSpace("hi") == "hi" && Draft(Words("", ["hi"], "")) == "hi"
  {
    TrimSpaceTidy("hi");
    assert Parts(Words("", ["hi"], "")) == ["hi"];
  }

  /** What the run looks like after each of its first steps. */
  ghost predicate Looks(m: Machine, phase: Phase, ms: int, words: Words) {
    && m.phase == phase && m.clock == Clock(ms, 0, false, Meter.INITIAL) && m.words == words
    && m.volume == Volume(false, 0) && m.sttOpen
  }

  lemma HearHi(m: Machine)
    requires m == Initial(QuickConfig())
    ensures Looks(Step(QuickConfig(), m, TALKED_OVER[0]), Listening, 0, Words("", ["hi"], ""))
  {
    hide Watched, ProtoStep, BookStep, CalmStep, LineStep, TrimSpace;
    HiIsDraft();
  }

  lemma Pause(m: Machine)
    requires Looks(m, Listening, 0, Words("", ["hi"], ""))
    ensures Looks(Step(QuickConfig(), m, TALKED_OVER[1]), Endpointing, 20, Words("", ["hi"], ""))
  {
    hide Watched, ProtoStep, BookStep, CalmStep, LineStep, Draft;
    HiIsDraft();
  }

  lemma BeginReply(m: Machine)
    requires Looks(m, Endpointing, 20, Words("", ["hi"], ""))
    ensures var r := Step(QuickConfig(), m, TALKED_OVER[2]);
            && Looks(r, Thinking, 40, Words("hi", [], "")) && r.reply.ttsCh.Some?
            && r.reply.tracker == Some(Tracker(0, 0, []))
  {
    hide Watched, ProtoStep, BookStep, CalmStep, LineStep, Draft, WaitForMs;
    HiIsDraft();
    ZeroWait(QuickConfig(), "hi", m.locale);
  }

  lemma SpeakChunk(m: Machine)
    requires Looks(m, Thinking, 40, Words("hi", [], "")) && m.reply.ttsCh.Some?
    requires m.reply.tracker == Some(Tracker(0, 0, []))
    ensures var r := Step(QuickConfig(), m, TALKED_OVER[3]);
            && Looks(r, Speaking, 40, Words("hi", [], "")) && r.reply.ttsCh.Some?
            && r.reply.tracker == Some(Tracker(0, 20, [])) && r.reply.speakStartMs == 40
  {
    hide Watched, ProtoStep, BookStep, CalmStep, LineStep;
    var none: seq<WordTiming> := [];
    assert none + Rebase(none, 0) == none;
  }

  lemma CloseSynthesis(m: Machine)
    requires Looks(m, Speaking, 40, Words("hi", [], "")) && m.reply.ttsCh.Some?
    ensures var r := Step(QuickConfig(), m, TALKED_OVER[4]);
            && Looks(r, Speaking, 40, Words("hi", [], "")) && r.reply.ttsDone
            && r.reply.tracker == m.reply.tracker && r.reply.speakStartMs == m.reply.speakStartMs
  {}

  lemma TalkOver(m: Machine)
    requires Looks(m, Speaking, 40, Words("hi", [], "")) && m.reply.ttsDone
    requires m.reply.tracker == Some(Tracker(0, 20, [])) && m.reply.speakStartMs == 40
    ensures var r := Step(QuickConfig(), m, TALKED_OVER[5]); r.phase == Listening && r.volume.ducked
  {
    hide Watched, ProtoStep, BookStep, CalmStep, LineStep, SpokenBy, CompleteAgentTurn;
    var m1 := Advance(QuickConfig(), m, true, FINE);
    CompleteVolume(QuickConfig(), UnduckWhenUnconfirmed(QuickConfig(), DuckOnOnset(m1, true)));
    CompletePhase(QuickConfig(), UnduckWhenUnconfirmed(QuickConfig(), DuckOnOnset(m1, true)));
  }

  lemma CompletePhase(c: Config, m: Machine)
    ensures CompleteAgentTurn(c, m).phase == Listening
  {
    hide Watched, ProtoStep, BookStep, CalmStep, LineStep, SpokenBy;
  }

  lemma ZeroWait(c: Config, text: string, locale: Locale)
    requires c.delays == Delays(0, 0, 0, 0, 0)
    ensures WaitForMs(c.lexicon, text, locale, c.delays) == 0
  {}

  lemma RunEmpty(c: Config)
    ensures Run(c, []) == Initial(c)
  {}

  lemma RunStep(c: Config, inputs: seq<Input>, n: nat)
    requires 0 < n <= |inputs|
    ensures Run(c, inputs[..n]) == Step(c, Run(c, inputs[..n - 1]), inputs[n - 1])
  {
    hide Step;
    assert inputs[..n][..n - 1] == inputs[..n - 1];
  }

  /** So "ducked only while speaking" fails: the caller starts to talk as the last of the
      reply is played, and the machine listens with the line still ducked. */
  lemma DuckedWhileListening()
    ensures var m := Run(QuickConfig(), TALKED_OVER); m.phase == Listening && m.volume.ducked
  {
    hide Run, Step;
    var c, t := QuickConfig(), TALKED_OVER;
    RunEmpty(c);
    assert t[..0] == [] && t[..6] == t;
    RunStep(c, t, 1);
    HearHi(Run(c, t[..0]));
    RunStep(c, t, 2);
    Pause(Run(c, t[..1]));
    RunStep(c, t, 3);
    BeginReply(Run(c, t[..2]));
    RunStep(c, t, 4);
    SpeakChunk(Run(c, t[..3]));
    RunStep(c, t, 5);
    CloseSynthesis(Run(c, t[..4]));
    RunStep(c, t, 6);
    TalkOver(Run(c, t[..5]));
  }
}
