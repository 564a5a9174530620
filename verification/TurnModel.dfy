/** The turn machine of one call, as functions on a value state: one function per handler,
    one input per arm of the select loop. Everything the machine does to its collaborators
    (hooks, playback, reply pipeline) is appended to `log`. */
module TurnModel {
  import opened Common
  import opened Text
  import opened Playout
  import opened Endpoint
  import Meter
  import opened TurnWatch

  const FRAME_MS := 20

  datatype Config = Config(
    lexicon: Lexicon, delays: Delays, minBargeChars: int, confirmWindowMs: int,
    playoutOffsetMs: int, onsetFrames: int, hangover: int, initialLocale: Locale)

  /** One speech recognizer hypothesis; an empty locale means "unchanged". */
  datatype Result = Result(text: string, isFinal: bool, locale: Locale)

  /** How the collaborators answer during one step. `clip` is the duration of the audio-bank
      clip when the lookup succeeds. */
  datatype Env = Env(sttOk: bool, agentOk: bool, speakOk: bool, clip: Option<nat>,
                     writeOk: bool, flushOk: bool)

  /** One firing of an arm of the select loop. */
  datatype Input =
    | Frame(loud: bool, env: Env)
    | Stt(result: Result, env: Env)
    | SttClosed
    | TtsChunk(chunk: Chunk, env: Env)
    | TtsClosed
    | FillerFired(env: Env)

  /** A reply pipeline is named by the number of pipelines opened before it: `turnCancel`
      holds the pipeline the cancel function tears down, `ttsCh` the one whose channel is
      read. */
  datatype Clock = Clock(mediaMs: int, lastSpeechMs: int, prevSpeaking: bool, meter: Meter.State)

  datatype Reply = Reply(turnCancel: Option<nat>, ttsCh: Option<nat>, fillerTimer: bool, fillerC: bool,
                         tracker: Option<Tracker>, ttsDone: bool, speakStartMs: int, replies: nat)

  datatype Volume = Volume(ducked: bool, duckStartMs: int)

  datatype Machine = Machine(phase: Phase, clock: Clock, locale: Locale, words: Words, reply: Reply,
                             volume: Volume, sttOpen: bool, seen: Watcher)

  function Initial(c: Config): Machine {
    Machine(Listening, Clock(0, 0, false, Meter.INITIAL), c.initialLocale, Words("", [], ""),
            Reply(None, None, false, false, None, false, 0, 0), Volume(false, 0), true, START)
  }

  function Emit(m: Machine, a: Act): Machine {
    m.(seen := Watch(m.seen, a))
  }

  function SetState(m: Machine, s: Phase): Machine {
    if m.phase == s then m else Emit(m, StateChange(m.phase, s)).(phase := s)
  }

  function Duck(m: Machine, on: bool): Machine {
    Emit(m, DuckSet(on)).(volume := Volume(on, if on then m.clock.mediaMs else m.volume.duckStartMs))
  }

  /** The reply record once its pipeline is torn down. */
  function Released(r: Reply): Reply {
    r.(turnCancel := None, ttsCh := None, ttsDone := false, fillerTimer := false, fillerC := false)
  }

  function CancelTurn(m: Machine): Machine {
    var m1 := if m.reply.turnCancel.Some? then Emit(m, ReplyCancelled(m.reply.turnCancel.value)) else m;
    m1.(reply := Released(m.reply))
  }

  // --- the draft of the caller's turn

  function ResetDraft(m: Machine): Machine {
    Emit(m, DraftReset).(words := Words("", [], ""))
  }

  function Absorb(m: Machine, r: Result): Machine {
    var text := TrimSpace(r.text);
    Emit(m, Absorbed(text, r.isFinal)).(words :=
      if r.isFinal then Words(m.words.carryText, m.words.finals + [text], "")
      else m.words.(lastPart := text))
  }

  /** Absorbed text is speech evidence even when the energy gate missed it. */
  function AbsorbAsSpeech(m: Machine, r: Result): Machine {
    Absorb(m, r).(clock := m.clock.(lastSpeechMs := m.clock.mediaMs))
  }

  // --- playout

  function PlayedMs(m: Machine): int {
    var played := m.clock.mediaMs - m.reply.speakStartMs;
    if m.reply.tracker.Some? then Min(played, m.reply.tracker.value.writtenMs) else played
  }

  function CompleteAgentTurn(c: Config, m: Machine): Machine {
    var text := if m.reply.tracker.Some?
                then SpokenBy(m.reply.tracker.value, PlayedMs(m) + c.playoutOffsetMs).0 else "";
    SetState(ResetDraft(Emit(CancelTurn(m), AgentTurn(text, false))), Listening)
  }

  function MaybeFinishSpeaking(c: Config, m: Machine): Machine {
    if m.reply.ttsDone && m.reply.tracker.Some? && PlayedMs(m) >= m.reply.tracker.value.writtenMs
    then CompleteAgentTurn(c, m) else m
  }

  // --- turn lifecycle

  function Rethink(m: Machine): Machine { SetState(CancelTurn(m), Listening) }

  function Report(m: Machine, ok: bool, stage: string): Machine {
    if ok then m else Emit(m, Failed(stage))
  }

  function WriteClip(m: Machine, ms: nat, env: Env): Machine {
    Report(Emit(m, ClipWritten(ms, env.writeOk)), env.writeOk, "playback")
  }

  function FailTurn(m: Machine, env: Env): Machine {
    var m1 := CancelTurn(m);
    SetState(if env.clip.Some? then WriteClip(m1, env.clip.value, env) else m1, Listening)
  }

  function OpenReply(m: Machine): Machine {
    Emit(m, ReplyOpened(m.reply.replies))
    .(reply := m.reply.(turnCancel := Some(m.reply.replies), replies := m.reply.replies + 1))
  }

  /** The reply record of a pipeline that starts to think: its channel, a new tracker, the
      armed filler. */
  function BeginThinkingReply(c: Config, r: Reply): Reply {
    r.(ttsCh := r.turnCancel, ttsDone := false, tracker := Some(Tracker(c.playoutOffsetMs, 0, [])),
       fillerTimer := true, fillerC := true)
  }

  function BeginThinking(c: Config, m: Machine): Machine {
    SetState(m.(reply := BeginThinkingReply(c, m.reply)), Thinking)
  }

  function StartAgentTurn(c: Config, m: Machine, env: Env): Machine {
    var m1 := OpenReply(m);
    if !env.agentOk then FailTurn(Emit(m1, Failed("agent")), env)
    else if !env.speakOk then FailTurn(Emit(m1, Failed("tts")), env)
    else BeginThinking(c, m1)
  }

  function DeliverUserTurn(m: Machine, text: string): Machine {
    Emit(m, UserTurn(text, m.locale)).(words := Words(text, [], ""))
  }

  function FinalizeUserTurn(c: Config, m: Machine, env: Env): Machine {
    var text := Draft(m.words);
    if text == "" then SetState(m, Listening)
    else StartAgentTurn(c, DeliverUserTurn(m, text), env)
  }

  // --- the frame path

  function AdvanceClock(c: Config, k: Clock, loud: bool): Clock {
    var now := k.mediaMs + FRAME_MS;
    var meter := Meter.Next(c.onsetFrames, c.hangover, k.meter, loud);
    Clock(now, if meter.speaking then now else k.lastSpeechMs, meter.speaking, meter)
  }

  /** What every frame does in every state: the clock, the recognizer feed, the meter. */
  function Advance(c: Config, m: Machine, loud: bool, env: Env): Machine {
    var clock := AdvanceClock(c, m.clock, loud);
    Emit(Report(m, env.sttOk, "stt"), Tick(clock.prevSpeaking)).(clock := clock)
  }

  function DuckOnOnset(m: Machine, onset: bool): Machine {
    if onset && !m.volume.ducked then Duck(m, true) else m
  }

  function UnduckWhenUnconfirmed(c: Config, m: Machine): Machine {
    if m.volume.ducked && m.clock.mediaMs - m.volume.duckStartMs >= c.confirmWindowMs
    then Duck(m, false) else m
  }

  function EndpointingFrame(c: Config, m: Machine, env: Env): Machine {
    if m.clock.prevSpeaking then SetState(m, Listening)
    else if m.clock.mediaMs - m.clock.lastSpeechMs
            >= WaitForMs(c.lexicon, Draft(m.words), m.locale, c.delays)
    then FinalizeUserTurn(c, m, env)
    else m
  }

  function ListeningFrame(m: Machine): Machine {
    if Draft(m.words) != "" && !m.clock.prevSpeaking && m.clock.mediaMs > m.clock.lastSpeechMs
    then SetState(m, Endpointing) else m
  }

  function SpeakingFrame(c: Config, m: Machine, onset: bool): Machine {
    MaybeFinishSpeaking(c, UnduckWhenUnconfirmed(c, DuckOnOnset(m, onset)))
  }

  function OnFrame(c: Config, m: Machine, loud: bool, env: Env): Machine {
    var m1 := Advance(c, m, loud, env);
    var onset := m1.clock.prevSpeaking && !m.clock.prevSpeaking;
    match m1.phase
    case Listening => ListeningFrame(m1)
    case Endpointing => EndpointingFrame(c, m1, env)
    case Thinking => if onset then Rethink(m1) else m1
    case Speaking => SpeakingFrame(c, m1, onset)
  }

  // --- the recognizer path

  /** The agent turn recorded for an interrupted utterance. */
  function InterruptedText(m: Machine): string {
    if m.reply.tracker.None? then ""
    else
      var (text, cut) := SpokenBy(m.reply.tracker.value, PlayedMs(m));
      if cut then text else TrimSpace(text + " " + CUT)
  }

  function Unduck(m: Machine): Machine {
    if m.volume.ducked then Duck(m, false) else m
  }

  function FlushLine(m: Machine, env: Env): Machine {
    Report(Emit(m, Flushed(env.flushOk)), env.flushOk, "playback")
  }

  /** The hard cut: pipeline cancelled, line flushed, volume restored. */
  function CutLine(m: Machine, env: Env): Machine {
    Unduck(FlushLine(CancelTurn(m), env))
  }

  function ConfirmBargeIn(m: Machine, r: Result, env: Env): Machine {
    var m1 := CutLine(m, env);
    var m2 := Emit(Emit(m1, AgentTurn(InterruptedText(m), true)), BargeIn(r.text));
    SetState(AbsorbAsSpeech(ResetDraft(m2), r), Listening)
  }

  function OnSpeakingStt(c: Config, m: Machine, r: Result, env: Env): Machine {
    if IsBackchannel(c.lexicon, r.text, m.locale) then Unduck(m)
    else if RealTextLen(r.text) < c.minBargeChars then m
    else ConfirmBargeIn(m, r, env)
  }

  function SwitchLocale(m: Machine, r: Result): Machine {
    if r.locale != "" && r.locale != m.locale
    then Emit(m, LanguageSwitch(m.locale, r.locale)).(locale := r.locale) else m
  }

  function OnStt(c: Config, m: Machine, r: Result, env: Env): Machine {
    var m1 := SwitchLocale(m, r);
    if TrimSpace(r.text) == "" then m1
    else
      var m2 := Emit(m1, Heard);
      match m.phase
      case Listening => AbsorbAsSpeech(m2, r)
      case Endpointing => SetState(AbsorbAsSpeech(m2, r), Listening)
      case Thinking =>
        if IsBackchannel(c.lexicon, r.text, m2.locale) then m2 else AbsorbAsSpeech(Rethink(m2), r)
      case Speaking => OnSpeakingStt(c, m2, r, env)
  }

  // --- synthesis and filler

  function OnTtsClosed(c: Config, m: Machine): Machine {
    var m1 := m.(reply := m.reply.(ttsCh := None, ttsDone := true));
    if m.phase == Thinking then CompleteAgentTurn(c, m1) else m1
  }

  /** The first chunk flips thinking to speaking and stops the filler. */
  function BeginSpeaking(m: Machine): Machine {
    if m.phase != Thinking then m
    else SetState(m.(reply := m.reply.(fillerTimer := false, fillerC := false,
                                       speakStartMs := m.clock.mediaMs)), Speaking)
  }

  function PlayChunk(m: Machine, id: nat, chunk: Chunk, env: Env): Machine
    requires m.reply.tracker.Some?
  {
    Report(Emit(m, ChunkWritten(id, chunk.durationMs, env.writeOk))
           .(reply := m.reply.(tracker := Some(Extend(m.reply.tracker.value, chunk)))),
           env.writeOk, "playback")
  }

  function OnChunk(m: Machine, chunk: Chunk, env: Env): Machine
    requires m.reply.ttsCh.Some? && m.reply.tracker.Some?
  {
    PlayChunk(BeginSpeaking(m), m.reply.ttsCh.value, chunk, env)
  }

  function OnFiller(m: Machine, env: Env): Machine {
    var m1 := m.(reply := m.reply.(fillerC := false));
    if m.phase != Thinking then m1
    else if env.clip.None? then Emit(m1, Failed("audiobank"))
    else Emit(WriteClip(m1, env.clip.value, env), FillerPlayed)
  }

  // --- the loop

  /** An arm fires only when its channel is not nil. */
  predicate Enabled(m: Machine, i: Input) {
    match i
    case Frame(_, _) => true
    case Stt(_, _) => m.sttOpen
    case SttClosed => m.sttOpen
    case TtsChunk(_, _) => m.reply.ttsCh.Some?
    case TtsClosed => m.reply.ttsCh.Some?
    case FillerFired(_) => m.reply.fillerC
  }

  /** A chunk without a tracker would be a nil dereference in the Go code; `RunKeeps` in
      TurnProtocol proves that no run gets there. */
  predicate Faults(m: Machine, i: Input) {
    i.TtsChunk? && m.reply.ttsCh.Some? && m.reply.tracker.None?
  }

  function Step(c: Config, m: Machine, i: Input): Machine {
    if !Enabled(m, i) || Faults(m, i) then m
    else
      match i
      case Frame(loud, env) => OnFrame(c, m, loud, env)
      case Stt(r, env) => OnStt(c, m, r, env)
      case SttClosed => m.(sttOpen := false)
      case TtsChunk(chunk, env) => OnChunk(m, chunk, env)
      case TtsClosed => OnTtsClosed(c, m)
      case FillerFired(env) => OnFiller(m, env)
  }

  /** The machine after any interleaving of inputs. */
  function Run(c: Config, inputs: seq<Input>): Machine {
    if inputs == [] then Initial(c)
    else Step(c, Run(c, inputs[..|inputs| - 1]), inputs[|inputs| - 1])
  }
}
