/** The turn machine as the object it is: one method per handler, fields updated in place,
    each method proved to do to the fields what TurnModel's function does to the value. The
    observers of TurnWatch stand where the hooks, the playback and the reply pipeline are. */
module TurnMachine {
  import opened Common
  import opened Text
  import opened Endpoint
  import opened TurnWatch
  import Playout
  import Meter
  import M = TurnModel
  import TurnProtocol

  class TurnMachine {
    const cfg: M.Config
    const meter: Meter.Meter

    var phase: Phase
    var mediaMs: int
    var lastSpeechMs: int
    var prevSpeaking: bool

    var activeLocale: Locale
    var carryText: string
    var finals: seq<string>
    var lastPart: string

    var turnCancel: Option<nat>
    var sttOpen: bool
    var ttsCh: Option<nat>
    var fillerTimer: bool
    var fillerC: bool
    var tracker: Playout.PlayoutTracker?
    var ttsDone: bool
    var speakStartMs: int
    var ducked: bool
    var duckStartMs: int
    var replies: nat

    ghost var seen: Watcher

    ghost function ReplyView(): M.Reply
      reads this, tracker
    {
      M.Reply(turnCancel, ttsCh, fillerTimer, fillerC,
              if tracker == null then None else Some(tracker.View()), ttsDone, speakStartMs, replies)
    }

    ghost function ClockView(): M.Clock
      reads this, meter
    {
      M.Clock(mediaMs, lastSpeechMs, prevSpeaking, meter.View())
    }

    ghost function View(): M.Machine
      reads this, meter, tracker
    {
      M.Machine(phase, ClockView(), activeLocale,
                Words(carryText, finals, lastPart), ReplyView(), M.Volume(ducked, duckStartMs),
                sttOpen, seen)
    }

    ghost predicate Valid()
    {
      meter.onset == cfg.onsetFrames && meter.hangover == cfg.hangover
    }

    constructor (cfg: M.Config)
      ensures Valid() && fresh(meter) && this.cfg == cfg && View() == M.Initial(cfg)
    {
      this.cfg := cfg;
      meter := new Meter.Meter(cfg.onsetFrames, cfg.hangover);
      phase, mediaMs, lastSpeechMs, prevSpeaking := Listening, 0, 0, false;
      activeLocale, carryText, finals, lastPart := cfg.initialLocale, "", [], "";
      turnCancel, sttOpen, ttsCh, fillerTimer, fillerC, tracker := None, true, None, false, false, null;
      ttsDone, speakStartMs, ducked, duckStartMs, replies := false, 0, false, 0, 0;
      seen := START;
    }

    ghost method Emit(a: Act)
      modifies this`seen
      ensures seen == Watch(old(seen), a)
    {
      seen := Watch(seen, a);
    }

    // --- plumbing

    method SetState(s: Phase)
      modifies this`phase, this`seen
      ensures View() == M.SetState(old(View()), s)
    {
      hide Watched, ProtoStep, BookStep, CalmStep, LineStep;
      var src := phase;
      phase := s;
      if src != s {
        Emit(StateChange(src, s));
      }
    }

    method Duck(on: bool)
      modifies this`ducked, this`duckStartMs, this`seen
      ensures View() == M.Duck(old(View()), on)
    {
      hide Watched, ProtoStep, BookStep, CalmStep, LineStep;
      ducked := on;
      if on {
        duckStartMs := mediaMs;
      }
      Emit(DuckSet(on));
    }

    method ReleaseReply()
      modifies this`turnCancel, this`ttsCh, this`ttsDone, this`fillerTimer, this`fillerC
      ensures ReplyView() == M.Released(old(ReplyView()))
    {
      turnCancel := None;
      ttsCh := None;
      ttsDone := false;
      StopFiller();
    }

    method CancelTurn()
      modifies this`turnCancel, this`ttsCh, this`ttsDone, this`fillerTimer, this`fillerC, this`seen
      ensures View() == M.CancelTurn(old(View()))
    {
      hide Watched, ProtoStep, BookStep, CalmStep, LineStep, M.Released;
      if turnCancel.Some? {
        Emit(ReplyCancelled(turnCancel.value));
      }
      ReleaseReply();
    }

    method StopFiller()
      modifies this`fillerTimer, this`fillerC
      ensures !fillerTimer && !fillerC
    {
      fillerTimer := false;
      fillerC := false;
    }

    method Report(ok: bool, stage: string)
      modifies this`seen
      ensures View() == M.Report(old(View()), ok, stage)
    {
      hide Watched, ProtoStep, BookStep, CalmStep, LineStep;
      if !ok {
        Emit(Failed(stage));
      }
    }

    method WriteClip(ms: nat, env: M.Env)
      modifies this`seen
      ensures seen == M.WriteClip(old(View()), ms, env).seen
    {
      hide Watched, ProtoStep, BookStep, CalmStep, LineStep;
      Emit(ClipWritten(ms, env.writeOk));
      Report(env.writeOk, "playback");
    }

    // --- the draft

    method Draft() returns (text: string)
      ensures text == TurnWatch.Draft(View().words)
    {
      var parts := [];
      if carryText != "" {
        parts := parts + [carryText];
      }
      parts := parts + finals;
      if lastPart != "" {
        parts := parts + [lastPart];
      }
      assert parts == Parts(View().words);
      return TrimSpace(Join(parts));
    }

    method ResetDraft()
      modifies this`carryText, this`finals, this`lastPart, this`seen
      ensures View() == M.ResetDraft(old(View()))
    {
      hide Watched, ProtoStep, BookStep, CalmStep, LineStep;
      carryText := "";
      finals := [];
      lastPart := "";
      Emit(DraftReset);
    }

    method Absorb(r: M.Result)
      modifies this`finals, this`lastPart, this`seen
      ensures finals == if r.isFinal then old(finals) + [TrimSpace(r.text)] else old(finals)
      ensures lastPart == if r.isFinal then "" else TrimSpace(r.text)
      ensures seen == Watch(old(seen), Absorbed(TrimSpace(r.text), r.isFinal))
    {
      Emit(Absorbed(TrimSpace(r.text), r.isFinal));
      if r.isFinal {
        finals := finals + [TrimSpace(r.text)];
        lastPart := "";
        return;
      }
      lastPart := TrimSpace(r.text);
    }

    method AbsorbAsSpeech(r: M.Result)
      modifies this`finals, this`lastPart, this`seen, this`lastSpeechMs
      ensures View() == M.AbsorbAsSpeech(old(View()), r)
    {
      hide Watched, ProtoStep, BookStep, CalmStep, LineStep, TrimSpace;
      Absorb(r);
      lastSpeechMs := mediaMs;
    }

    // --- playout

    method PlayedMs() returns (played: int)
      ensures played == M.PlayedMs(View())
    {
      played := mediaMs - speakStartMs;
      if tracker != null && played > tracker.writtenMs {
        played := tracker.writtenMs;
      }
    }

    method MaybeFinishSpeaking()
      modifies this
      ensures View() == M.MaybeFinishSpeaking(cfg, old(View())) && tracker == old(tracker)
    {
      hide Watched, ProtoStep, BookStep, CalmStep, LineStep, M.CompleteAgentTurn;
      if !ttsDone || tracker == null {
        return;
      }
      var played := PlayedMs();
      if played >= tracker.writtenMs {
        CompleteAgentTurn();
      }
    }

    method CompleteAgentTurn()
      modifies this
      ensures View() == M.CompleteAgentTurn(cfg, old(View())) && tracker == old(tracker)
    {
      hide Watched, ProtoStep, BookStep, CalmStep, LineStep, M.ResetDraft, M.CancelTurn, Playout.SpokenBy;
      var text := "";
      if tracker != null {
        var played := PlayedMs();
        var spoken, cut := tracker.Spoken(played + cfg.playoutOffsetMs);
        text := spoken;
      }
      CancelTurn();
      Emit(AgentTurn(text, false));
      ResetDraft();
      SetState(Listening);
    }

    // --- turn lifecycle

    method DeliverUserTurn(text: string)
      modifies this`carryText, this`finals, this`lastPart, this`seen
      ensures View() == M.DeliverUserTurn(old(View()), text)
    {
      hide Watched, ProtoStep, BookStep, CalmStep, LineStep;
      Emit(UserTurn(text, activeLocale));
      carryText := text;
      finals := [];
      lastPart := "";
    }

    method FinalizeUserTurn(env: M.Env)
      modifies this
      ensures View() == M.FinalizeUserTurn(cfg, old(View()), env)
      ensures tracker == old(tracker) || (tracker != null && fresh(tracker))
    {
      hide Watched, ProtoStep, BookStep, CalmStep, LineStep, M.StartAgentTurn, TurnWatch.Draft, M.DeliverUserTurn;
      var text := Draft();
      if text == "" {
        SetState(Listening);
        return;
      }
      DeliverUserTurn(text);
      StartAgentTurn(env);
    }

    method OpenReply()
      modifies this
      ensures View() == M.OpenReply(old(View())) && tracker == old(tracker)
    {
      hide Watched, ProtoStep, BookStep, CalmStep, LineStep;
      Emit(ReplyOpened(replies));
      turnCancel := Some(replies);
      replies := replies + 1;
    }

    method BeginThinkingReply()
      modifies this`ttsCh, this`ttsDone, this`tracker, this`fillerTimer, this`fillerC
      ensures ReplyView() == M.BeginThinkingReply(cfg, old(ReplyView())) && tracker != null && fresh(tracker)
    {
      ttsCh := turnCancel;
      ttsDone := false;
      tracker := new Playout.PlayoutTracker(cfg.playoutOffsetMs);
      fillerTimer := true;
      fillerC := true;
    }

    method BeginThinking()
      modifies this`ttsCh, this`ttsDone, this`tracker, this`fillerTimer, this`fillerC, this`phase, this`seen
      ensures View() == M.BeginThinking(cfg, old(View())) && tracker != null && fresh(tracker)
    {
      hide Watched, ProtoStep, BookStep, CalmStep, LineStep, M.SetState, M.BeginThinkingReply;
      BeginThinkingReply();
      SetState(Thinking);
    }

    method StartAgentTurn(env: M.Env)
      modifies this
      ensures View() == M.StartAgentTurn(cfg, old(View()), env)
      ensures tracker == old(tracker) || (tracker != null && fresh(tracker))
    {
      hide Watched, ProtoStep, BookStep, CalmStep, LineStep, M.FailTurn, M.OpenReply, M.BeginThinking;
      OpenReply();
      if !env.agentOk {
        Emit(Failed("agent"));
        FailTurn(env);
        return;
      }
      if !env.speakOk {
        Emit(Failed("tts"));
        FailTurn(env);
        return;
      }
      BeginThinking();
    }

    method FailTurn(env: M.Env)
      modifies this
      ensures View() == M.FailTurn(old(View()), env) && tracker == old(tracker)
    {
      hide Watched, ProtoStep, BookStep, CalmStep, LineStep;
      CancelTurn();
      if env.clip.Some? {
        WriteClip(env.clip.value, env);
      }
      SetState(Listening);
    }

    method Rethink()
      modifies this
      ensures View() == M.Rethink(old(View())) && tracker == old(tracker)
    {
      hide Watched, ProtoStep, BookStep, CalmStep, LineStep;
      CancelTurn();
      SetState(Listening);
    }

    // --- the frame path

    /** The media clock and the meter, one frame on. */
    method AdvanceClock(loud: bool) returns (speaking: bool)
      requires Valid()
      modifies this`mediaMs, this`lastSpeechMs, this`prevSpeaking, meter
      ensures ClockView() == M.AdvanceClock(cfg, old(ClockView()), loud) && speaking == prevSpeaking
    {
      mediaMs := mediaMs + M.FRAME_MS;
      speaking := meter.Process(loud);
      prevSpeaking := speaking;
      if speaking {
        lastSpeechMs := mediaMs;
      }
    }

    method Advance(loud: bool, env: M.Env) returns (onset: bool)
      requires Valid()
      modifies this`mediaMs, this`lastSpeechMs, this`prevSpeaking, this`seen, meter
      ensures View() == M.Advance(cfg, old(View()), loud, env)
      ensures onset == (prevSpeaking && !old(prevSpeaking))
    {
      hide Watched, ProtoStep, BookStep, CalmStep, LineStep, M.AdvanceClock, M.Report;
      var before := prevSpeaking;
      Report(env.sttOk, "stt");
      var speaking := AdvanceClock(loud);
      Emit(Tick(speaking));
      onset := speaking && !before;
    }

    method ListeningFrame()
      modifies this`phase, this`seen
      ensures View() == M.ListeningFrame(old(View()))
    {
      hide Watched, ProtoStep, BookStep, CalmStep, LineStep, TurnWatch.Draft, M.SetState;
      var draft := Draft();
      if draft != "" && !prevSpeaking && mediaMs > lastSpeechMs {
        SetState(Endpointing);
      }
    }

    method EndpointingFrame(env: M.Env)
      modifies this
      ensures View() == M.EndpointingFrame(cfg, old(View()), env)
      ensures tracker == old(tracker) || (tracker != null && fresh(tracker))
    {
      hide Watched, ProtoStep, BookStep, CalmStep, LineStep, TurnWatch.Draft, M.SetState, M.FinalizeUserTurn, WaitForMs;
      if prevSpeaking {
        SetState(Listening);
        return;
      }
      var draft := Draft();
      var wait := WaitForMs(cfg.lexicon, draft, activeLocale, cfg.delays);
      if mediaMs - lastSpeechMs >= wait {
        FinalizeUserTurn(env);
      }
    }

    method SpeakingFrame(onset: bool)
      modifies this
      ensures View() == M.SpeakingFrame(cfg, old(View()), onset) && tracker == old(tracker)
    {
      hide Watched, ProtoStep, BookStep, CalmStep, LineStep, M.MaybeFinishSpeaking, M.Duck;
      if onset && !ducked {
        Duck(true);
      }
      if ducked && mediaMs - duckStartMs >= cfg.confirmWindowMs {
        Duck(false);
      }
      MaybeFinishSpeaking();
    }

    method OnFrame(loud: bool, env: M.Env)
      requires Valid()
      modifies this, meter
      ensures View() == M.OnFrame(cfg, old(View()), loud, env)
      ensures tracker == old(tracker) || (tracker != null && fresh(tracker))
    {
      hide Watched, ProtoStep, BookStep, CalmStep, LineStep;
      hide M.Advance, M.ListeningFrame, M.EndpointingFrame, M.SpeakingFrame, M.Rethink;
      var onset := Advance(loud, env);
      match phase {
        case Listening => ListeningFrame();
        case Endpointing => EndpointingFrame(env);
        case Thinking =>
          if onset {
            Rethink();
          }
        case Speaking => SpeakingFrame(onset);
      }
    }

    // --- the recognizer path

    method OnStt(r: M.Result, env: M.Env)
      modifies this
      ensures View() == M.OnStt(cfg, old(View()), r, env) && tracker == old(tracker)
    {
      hide Watched, ProtoStep, BookStep, CalmStep, LineStep, M.ConfirmBargeIn, M.AbsorbAsSpeech, TrimSpace;
      if r.locale != "" && r.locale != activeLocale {
        Emit(LanguageSwitch(activeLocale, r.locale));
        activeLocale := r.locale;
      }
      if TrimSpace(r.text) == "" {
        return;
      }
      Emit(Heard);
      match phase {
        case Listening =>
          AbsorbAsSpeech(r);
        case Endpointing =>
          AbsorbAsSpeech(r);
          SetState(Listening);
        case Thinking =>
          var back := IsBackchannelLoop(cfg.lexicon, r.text, activeLocale);
          if back {
            return;
          }
          Rethink();
          AbsorbAsSpeech(r);
        case Speaking =>
          OnSpeakingStt(r, env);
      }
    }

    method OnSpeakingStt(r: M.Result, env: M.Env)
      modifies this
      ensures View() == M.OnSpeakingStt(cfg, old(View()), r, env) && tracker == old(tracker)
    {
      hide Watched, ProtoStep, BookStep, CalmStep, LineStep, M.ConfirmBargeIn;
      var back := IsBackchannelLoop(cfg.lexicon, r.text, activeLocale);
      if back {
        if ducked {
          Duck(false);
        }
        return;
      }
      var n := RealTextLenLoop(r.text);
      if n < cfg.minBargeChars {
        return;
      }
      ConfirmBargeIn(r, env);
    }

    /** The hard cut: pipeline cancelled, line flushed, volume restored. */
    method CutLine(env: M.Env)
      modifies this`turnCancel, this`ttsCh, this`ttsDone, this`fillerTimer, this`fillerC, this`ducked,
        this`duckStartMs, this`seen
      ensures View() == M.CutLine(old(View()), env)
    {
      hide Watched, ProtoStep, BookStep, CalmStep, LineStep, M.CancelTurn;
      CancelTurn();
      Emit(Flushed(env.flushOk));
      Report(env.flushOk, "playback");
      if ducked {
        Duck(false);
      }
    }

    method ConfirmBargeIn(r: M.Result, env: M.Env)
      modifies this
      ensures View() == M.ConfirmBargeIn(old(View()), r, env) && tracker == old(tracker)
    {
      hide Watched, ProtoStep, BookStep, CalmStep, LineStep;
      hide M.AbsorbAsSpeech, M.CutLine, M.ResetDraft, M.InterruptedText, TrimSpace;
      var text := InterruptedText();
      CutLine(env);
      Emit(AgentTurn(text, true));
      Emit(BargeIn(r.text));
      ResetDraft();
      AbsorbAsSpeech(r);
      SetState(Listening);
    }

    method InterruptedText() returns (text: string)
      ensures text == M.InterruptedText(View())
    {
      var played := PlayedMs();
      var cut := true;
      text := "";
      if tracker != null {
        text, cut := tracker.Spoken(played);
      }
      if !cut {
        text := TrimSpace(text + " " + Playout.CUT);
      }
    }

    // --- synthesis and filler

    method OnTtsClosed()
      modifies this
      ensures View() == M.OnTtsClosed(cfg, old(View())) && tracker == old(tracker)
    {
      hide Watched, ProtoStep, BookStep, CalmStep, LineStep, M.CompleteAgentTurn;
      ttsCh := None;
      ttsDone := true;
      if phase == Thinking {
        CompleteAgentTurn();
      }
    }

    method OnChunk(c: Playout.Chunk, env: M.Env)
      requires ttsCh.Some? && tracker != null
      modifies this, tracker
      ensures View() == M.OnChunk(old(View()), c, env) && tracker == old(tracker)
    {
      hide Watched, ProtoStep, BookStep, CalmStep, LineStep, Playout.Extend;
      if phase == Thinking {
        StopFiller();
        speakStartMs := mediaMs;
        SetState(Speaking);
      }
      assert View() == M.BeginSpeaking(old(View()));
      hide M.BeginSpeaking;
      tracker.AddChunk(c);
      Emit(ChunkWritten(ttsCh.value, c.durationMs, env.writeOk));
      Report(env.writeOk, "playback");
    }

    method OnFiller(env: M.Env)
      modifies this
      ensures View() == M.OnFiller(old(View()), env) && tracker == old(tracker)
    {
      hide Watched, ProtoStep, BookStep, CalmStep, LineStep;
      fillerC := false;
      if phase != Thinking {
        return;
      }
      if env.clip.None? {
        Emit(Failed("audiobank"));
        return;
      }
      WriteClip(env.clip.value, env);
      Emit(FillerPlayed);
    }

    // --- the loop

    /** One pass through the select loop; an arm whose channel is nil never fires. */
    method Step(i: M.Input)
      requires Valid() && !M.Faults(View(), i)
      modifies this, meter, tracker
      ensures View() == M.Step(cfg, old(View()), i)
      ensures tracker == old(tracker) || (tracker != null && fresh(tracker))
    {
      hide Watched, M.OnFrame, M.OnStt, M.OnChunk, M.OnFiller, M.OnTtsClosed;
      match i {
        case Frame(loud, env) => OnFrame(loud, env);
        case Stt(r, env) => if sttOpen { OnStt(r, env); }
        case SttClosed => sttOpen := false;
        case TtsChunk(c, env) => if ttsCh.Some? { OnChunk(c, env); }
        case TtsClosed => if ttsCh.Some? { OnTtsClosed(); }
        case FillerFired(env) => if fillerC { OnFiller(env); }
      }
    }

    /** The whole call: every interleaving of inputs, then the deferred cancellation. */
    method Run(inputs: seq<M.Input>)
      requires Valid() && View() == M.Initial(cfg) && tracker == null
      modifies this, meter
      ensures View() == M.CancelTurn(M.Run(cfg, inputs))
      ensures turnCancel.None? && seen.proto.ok
    {
      hide Watched, ProtoStep, BookStep, CalmStep, LineStep, M.Step;
      for i := 0 to |inputs|
        invariant View() == M.Run(cfg, inputs[..i])
        invariant tracker == null || fresh(tracker)
      {
        TurnProtocol.RunKeeps(cfg, inputs[..i]);
        TurnProtocol.StepKeeps(cfg, View(), inputs[i]);
        assert inputs[..i + 1][..i] == inputs[..i];
        Step(inputs[i]);
      }
      assert inputs[..|inputs|] == inputs;
      TurnProtocol.RunKeeps(cfg, inputs);
      TurnProtocol.CancelKeeps(View());
      CancelTurn();
    }
  }
}
