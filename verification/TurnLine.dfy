/** Playout accounting: the machine's `playedMs` formula against a line that really plays,
    and what is therefore recorded as heard. */
module TurnLine {
  import Meter
  import opened Common
  import opened Text
  import opened Playout
  import opened Endpoint
  import opened TurnWatch
  import opened TurnModel
  import opened TurnProtocol

  type Queue = seq<Option<nat>>

  // --- the queue of an episode: older audio first, then the reply being spoken

  function Older(q: Queue, tag: Option<nat>): int { |q| - Count(q, tag) }

  ghost predicate Shaped(q: Queue, tag: Option<nat>) {
    && 0 <= Older(q, tag)
    && forall i :: 0 <= i < |q| ==> (q[i] == tag <==> i >= Older(q, tag))
  }

  lemma {:induction false} CountConcat(a: Queue, b: Queue, tag: Option<nat>)
    ensures Count(a + b, tag) == Count(a, tag) + Count(b, tag)
  {
    if a == [] {
      assert a + b == b;
    } else {
      CountConcat(a[1..], b, tag);
      assert (a + b)[1..] == a[1..] + b;
    }
  }

  lemma {:induction false} CountUniform(q: Queue, tag: Option<nat>, all: bool)
    requires forall i :: 0 <= i < |q| ==> (q[i] == tag) == all
    ensures Count(q, tag) == if all then |q| else 0
  {
    if q != [] {
      CountUniform(q[1..], tag, all);
    }
  }

  lemma ShapedByCut(q: Queue, tag: Option<nat>, n: nat)
    requires n <= |q| && forall i :: 0 <= i < |q| ==> (q[i] == tag <==> i >= n)
    ensures Shaped(q, tag) && Older(q, tag) == n
  {
    CountUniform(q[..n], tag, false);
    CountUniform(q[n..], tag, true);
    CountConcat(q[..n], q[n..], tag);
    assert q == q[..n] + q[n..];
  }

  lemma PlayedFromShaped(q: Queue, tag: Option<nat>, k: nat)
    requires Shaped(q, tag) && k <= |q|
    ensures Shaped(q[k..], tag) && Older(q[k..], tag) == Max(0, Older(q, tag) - k)
    ensures Count(q[..k], tag) == Max(0, k - Older(q, tag))
  {
    ShapedByCut(q[k..], tag, Min(|q| - k, Max(0, Older(q, tag) - k)));
    ShapedByCut(q[..k], tag, Min(k, Older(q, tag)));
  }

  lemma WriteToShaped(q: Queue, tag: Option<nat>, n: nat)
    requires Shaped(q, tag)
    ensures Shaped(q + Copies(tag, n), tag) && Older(q + Copies(tag, n), tag) == Older(q, tag)
  {
    ShapedByCut(q + Copies(tag, n), tag, Older(q, tag));
  }

  // --- the invariant

  ghost predicate Tags(q: Queue, replies: nat) {
    forall t :: t in q && t.Some? ==> t.value < replies
  }

  /** Media time since the reply began to speak. */
  function Elapsed(m: Machine): int { m.clock.mediaMs - m.reply.speakStartMs }

  ghost predicate Episode(l: Line, elapsed: int, written: int, live: Option<nat>) {
    var older := Older(l.queue, live);
    && l.of == live && Shaped(l.queue, live)
    && elapsed == l.ahead - older + l.played + l.idle
    && older <= l.ahead <= l.lag <= l.ahead + l.idle
    && (l.queue != [] ==> l.lag == l.ahead + l.idle)
    && (older > 0 ==> l.played == 0)
    && l.played + Count(l.queue, live) <= written
    && (!l.lost ==> l.played + Count(l.queue, live) == written)
  }

  ghost predicate LineInv(m: Machine) {
    && Tags(m.seen.line.queue, m.reply.replies)
    && (m.phase == Thinking ==> m.reply.turnCancel !in m.seen.line.queue)
    && (m.phase == Speaking ==>
          && m.reply.tracker.Some?
          && Episode(m.seen.line, Elapsed(m), m.reply.tracker.value.writtenMs, m.reply.turnCancel))
  }

  // --- steps of the line

  lemma TickKeepsEpisode(l: Line, elapsed: int, written: int, live: Option<nat>, speaking: bool)
    requires Episode(l, elapsed, written, live)
    ensures Episode(LineStep(l, live, Tick(speaking)), elapsed + 20, written, live)
  {
    var k := Min(20, |l.queue|);
    PlayedFromShaped(l.queue, live, k);
  }

  lemma WriteKeepsEpisode(l: Line, elapsed: int, written: int, id: nat, ms: nat, ok: bool)
    requires Episode(l, elapsed, written, Some(id))
    ensures Episode(LineStep(l, Some(id), ChunkWritten(id, ms, ok)), elapsed, written + ms, Some(id))
  {
    if ok && ms > 0 {
      WriteToShaped(l.queue, Some(id), ms);
      WriteCount(l.queue, Some(id), ms);
    }
  }

  lemma WriteCount(q: Queue, tag: Option<nat>, n: nat)
    ensures Count(q + Copies(tag, n), tag) == Count(q, tag) + n
  {
    CountConcat(q, Copies(tag, n), tag);
    CountUniform(Copies(tag, n), tag, true);
  }

  lemma BeginEpisode(l: Line, live: Option<nat>)
    requires live !in l.queue && live.Some?
    ensures Episode(LineStep(l, live, StateChange(Thinking, Speaking)), 0, 0, live)
  {
    ShapedByCut(l.queue, live, |l.queue|);
  }

  /** Line, clock and reply counter are as before. */
  ghost predicate LineStill(m: Machine, r: Machine) {
    r.seen.line == m.seen.line && r.clock == m.clock && r.reply.replies == m.reply.replies
  }

  lemma ReportStill(m: Machine, ok: bool, stage: string)
    ensures var r := Report(m, ok, stage); r == m.(seen := r.seen) && r.seen.line == m.seen.line
  {
    hide Watched, ProtoStep, BookStep, CalmStep;
  }

  lemma CancelStill(m: Machine)
    ensures LineStill(m, CancelTurn(m)) && CancelTurn(m).phase == m.phase
  {
    hide Watched, ProtoStep, BookStep, CalmStep;
  }

  lemma SetStateStill(m: Machine, s: Phase)
    requires s != Speaking
    ensures var r := SetState(m, s); r == m.(phase := s, seen := r.seen) && r.seen.line == m.seen.line
  {
    hide Watched, ProtoStep, BookStep, CalmStep;
  }

  lemma WriteClipLine(m: Machine, ms: nat, env: Env)
    requires Tags(m.seen.line.queue, m.reply.replies)
    ensures var r := WriteClip(m, ms, env);
            && r == m.(seen := r.seen) && Tags(r.seen.line.queue, r.reply.replies)
            && (m.reply.turnCancel.Some? && m.reply.turnCancel !in m.seen.line.queue ==>
                  m.reply.turnCancel !in r.seen.line.queue)
  {
    hide Watched, ProtoStep, BookStep, CalmStep, Report;
    ReportStill(Emit(m, ClipWritten(ms, env.writeOk)), env.writeOk, "playback");
  }

  lemma FailTurnLine(m: Machine, env: Env)
    requires Tags(m.seen.line.queue, m.reply.replies)
    ensures var r := FailTurn(m, env);
            Tags(r.seen.line.queue, r.reply.replies) && r.phase == Listening
  {
    hide Watched, ProtoStep, BookStep, CalmStep, LineStep, CancelTurn, WriteClip, SetState;
    CancelStill(m);
    var m1 := CancelTurn(m);
    if env.clip.Some? {
      WriteClipLine(m1, env.clip.value, env);
    }
    SetStateStill(if env.clip.Some? then WriteClip(m1, env.clip.value, env) else m1, Listening);
  }

  lemma OpenReplyLine(m: Machine)
    requires Tags(m.seen.line.queue, m.reply.replies)
    ensures var r := OpenReply(m);
            && Tags(r.seen.line.queue, r.reply.replies) && r.phase == m.phase
            && r.reply.turnCancel.Some? && r.reply.turnCancel !in r.seen.line.queue
  {
    hide Watched, ProtoStep, BookStep, CalmStep;
  }

  lemma BeginThinkingLine(c: Config, m: Machine)
    ensures var r := BeginThinking(c, m);
            && LineStill(m, r) && r.reply.turnCancel == m.reply.turnCancel && r.phase == Thinking
  {
    hide Watched, ProtoStep, BookStep, CalmStep;
  }

  lemma FinalizeLine(c: Config, m: Machine, env: Env)
    requires Tags(m.seen.line.queue, m.reply.replies)
    ensures LineInv(FinalizeUserTurn(c, m, env))
  {
    hide Watched, ProtoStep, BookStep, CalmStep, OpenReply, FailTurn, BeginThinking, SetState, Draft;
    var text := Draft(m.words);
    if text == "" {
      SetStateStill(m, Listening);
    } else {
      var m1 := DeliverUserTurn(m, text);
      OpenReplyLine(m1);
      var m2 := OpenReply(m1);
      FailTurnLine(Emit(m2, Failed("agent")), env);
      FailTurnLine(Emit(m2, Failed("tts")), env);
      BeginThinkingLine(c, m2);
    }
  }

  lemma AdvanceLine(c: Config, m: Machine, loud: bool, env: Env)
    requires LineInv(m) && Inv(c, m)
    ensures LineInv(Advance(c, m, loud, env))
  {
    hide Watched, ProtoStep, BookStep, CalmStep, Report, LineStep, Meter.Next;
    ReportStill(m, env.sttOk, "stt");
    AdvanceIs(c, m, loud, env);
    var l := m.seen.line;
    var speaking := Meter.Next(c.onsetFrames, c.hangover, m.clock.meter, loud).speaking;
    var live :| Advance(c, m, loud, env).seen.line == LineStep(l, live, Tick(speaking));
    TickTags(l, live, speaking);
    if m.phase == Speaking {
      TickKeepsEpisode(l, Elapsed(m), m.reply.tracker.value.writtenMs, m.reply.turnCancel, speaking);
      LineIgnoresLive(l, live, m.reply.turnCancel, Tick(speaking));
    }
  }

  lemma TickTags(l: Line, live: Option<nat>, speaking: bool)
    ensures forall t :: t in LineStep(l, live, Tick(speaking)).queue ==> t in l.queue
  {}

  lemma LineIgnoresLive(l: Line, a: Option<nat>, b: Option<nat>, act: Act)
    requires !act.StateChange?
    ensures LineStep(l, a, act) == LineStep(l, b, act)
  {}

  lemma AdvanceIs(c: Config, m: Machine, loud: bool, env: Env)
    ensures var r := Advance(c, m, loud, env);
            && r == m.(clock := r.clock, seen := r.seen)
            && r.clock.mediaMs == m.clock.mediaMs + 20
            && exists live :: r.seen.line == LineStep(m.seen.line, live,
                                 Tick(Meter.Next(c.onsetFrames, c.hangover, m.clock.meter, loud).speaking))
  {
    hide Watched, ProtoStep, BookStep, CalmStep, LineStep, Report, Meter.Next;
    ReportStill(m, env.sttOk, "stt");
  }

  lemma CompleteLine(c: Config, m: Machine)
    requires Tags(m.seen.line.queue, m.reply.replies)
    ensures LineInv(CompleteAgentTurn(c, m))
  {
    hide Watched, ProtoStep, BookStep, CalmStep, CancelTurn, SetState, SpokenBy;
    CancelStill(m);
    var text := if m.reply.tracker.Some?
                then SpokenBy(m.reply.tracker.value, PlayedMs(m) + c.playoutOffsetMs).0 else "";
    SetStateStill(ResetDraft(Emit(CancelTurn(m), AgentTurn(text, false))), Listening);
  }

  lemma DuckingStill(c: Config, m: Machine, onset: bool)
    ensures var r := UnduckWhenUnconfirmed(c, DuckOnOnset(m, onset));
            r == m.(volume := r.volume, seen := r.seen) && r.seen.line == m.seen.line
  {
    hide Watched, ProtoStep, BookStep, CalmStep;
  }

  lemma FrameLine(c: Config, m: Machine, loud: bool, env: Env)
    requires LineInv(m) && Inv(c, m)
    ensures LineInv(OnFrame(c, m, loud, env))
  {
    hide Watched, ProtoStep, BookStep, CalmStep, LineStep, Advance, FinalizeUserTurn, CompleteAgentTurn,
      DuckOnOnset, UnduckWhenUnconfirmed, CancelTurn, Draft, WaitForMs, SetState, Episode;
    AdvanceLine(c, m, loud, env);
    AdvanceKeeps(c, m, loud, env);
    var m1 := Advance(c, m, loud, env);
    match m.phase
    case Listening => SetStateStill(m1, Endpointing);
    case Endpointing =>
      SetStateStill(m1, Listening);
      FinalizeLine(c, m1, env);
    case Thinking =>
      CancelStill(m1);
      SetStateStill(CancelTurn(m1), Listening);
    case Speaking =>
      var onset := m1.clock.prevSpeaking && !m.clock.prevSpeaking;
      DuckingStill(c, m1, onset);
      CompleteLine(c, UnduckWhenUnconfirmed(c, DuckOnOnset(m1, onset)));
  }

  lemma CutTags(m: Machine, env: Env)
    requires Tags(m.seen.line.queue, m.reply.replies)
    ensures var r := Unduck(FlushLine(CancelTurn(m), env)); Tags(r.seen.line.queue, r.reply.replies)
  {
    hide Watched, ProtoStep, BookStep, CalmStep, CancelTurn, Report;
    CancelStill(m);
    ReportStill(Emit(CancelTurn(m), Flushed(env.flushOk)), env.flushOk, "playback");
  }

  lemma AbsorbStill(m: Machine, r: Result)
    ensures var s := AbsorbAsSpeech(m, r);
            s == m.(words := s.words, clock := s.clock, seen := s.seen) && s.seen.line == m.seen.line
  {
    hide Watched, ProtoStep, BookStep, CalmStep, TrimSpace;
  }

  lemma BargeInLine(m: Machine, r: Result, env: Env)
    requires Tags(m.seen.line.queue, m.reply.replies)
    ensures LineInv(ConfirmBargeIn(m, r, env))
  {
    hide Watched, ProtoStep, BookStep, CalmStep, CancelTurn, FlushLine, Unduck, InterruptedText,
      AbsorbAsSpeech, SetState;
    CutTags(m, env);
    var m1 := Unduck(FlushLine(CancelTurn(m), env));
    var m2 := ResetDraft(Emit(Emit(m1, AgentTurn(InterruptedText(m), true)), BargeIn(r.text)));
    AbsorbStill(m2, r);
    SetStateStill(AbsorbAsSpeech(m2, r), Listening);
  }

  lemma SwitchLocaleStill(m: Machine, r: Result)
    ensures var s := SwitchLocale(m, r);
            s == m.(locale := s.locale, seen := s.seen) && s.seen.line == m.seen.line
  {
    hide Watched, ProtoStep, BookStep, CalmStep;
  }

  lemma UnduckStill(m: Machine)
    ensures var r := Unduck(m); r == m.(volume := r.volume, seen := r.seen) && r.seen.line == m.seen.line
  {
    hide Watched, ProtoStep, BookStep, CalmStep;
  }

  lemma SttLine(c: Config, m: Machine, r: Result, env: Env)
    requires LineInv(m)
    ensures LineInv(OnStt(c, m, r, env))
  {
    hide Watched, ProtoStep, BookStep, CalmStep, ConfirmBargeIn, IsBackchannel, RealTextLen, CancelTurn,
      AbsorbAsSpeech, SetState, TrimSpace, SwitchLocale, Unduck, Episode;
    SwitchLocaleStill(m, r);
    var m2 := Emit(SwitchLocale(m, r), Heard);
    AbsorbStill(m2, r);
    SetStateStill(AbsorbAsSpeech(m2, r), Listening);
    CancelStill(m2);
    SetStateStill(CancelTurn(m2), Listening);
    AbsorbStill(Rethink(m2), r);
    if m.phase == Speaking {
      BargeInLine(m2, r, env);
      UnduckStill(m2);
    }
  }

  lemma BeginSpeakingLine(c: Config, m: Machine)
    requires LineInv(m) && Inv(c, m) && m.phase == Thinking
    ensures LineInv(BeginSpeaking(m))
  {
    hide Watched, ProtoStep, BookStep, CalmStep, LineStep, Episode;
    BeginEpisode(m.seen.line, m.reply.turnCancel);
    BeginTags(m.seen.line, m.reply.turnCancel);
  }

  lemma BeginTags(l: Line, live: Option<nat>)
    ensures LineStep(l, live, StateChange(Thinking, Speaking)).queue == l.queue
  {}

  lemma BeginSpeakingKeeps(c: Config, m: Machine)
    requires Inv(c, m) && m.phase == Thinking
    ensures var r := BeginSpeaking(m);
            Inv(c, r) && r.phase == Speaking && r.reply.ttsCh == m.reply.ttsCh
  {
    hide Watched, BookStep, CalmStep, LineStep;
  }

  lemma PlayChunkLine(c: Config, m: Machine, chunk: Chunk, env: Env)
    requires LineInv(m) && Inv(c, m) && m.phase == Speaking && m.reply.ttsCh.Some?
    ensures LineInv(PlayChunk(m, m.reply.ttsCh.value, chunk, env))
  {
    hide Watched, ProtoStep, BookStep, CalmStep, LineStep, Episode, Report, Rebase;
    var id := m.reply.ttsCh.value;
    var act := ChunkWritten(id, chunk.durationMs, env.writeOk);
    WriteKeepsEpisode(m.seen.line, Elapsed(m), m.reply.tracker.value.writtenMs, id, chunk.durationMs, env.writeOk);
    LineIgnoresLive(m.seen.line, m.seen.proto.live, Some(id), act);
    WriteTags(m.seen.line, id, chunk.durationMs, env.writeOk);
    ReportStill(Emit(m, act).(reply := m.reply.(tracker := Some(Extend(m.reply.tracker.value, chunk)))),
                env.writeOk, "playback");
  }

  lemma WriteTags(l: Line, id: nat, ms: nat, ok: bool)
    ensures forall t :: t in LineStep(l, Some(id), ChunkWritten(id, ms, ok)).queue ==>
              t in l.queue || t == Some(id)
  {}

  lemma ChunkLine(c: Config, m: Machine, chunk: Chunk, env: Env)
    requires LineInv(m) && Inv(c, m) && m.reply.ttsCh.Some? && m.reply.tracker.Some?
    ensures LineInv(OnChunk(m, chunk, env))
  {
    hide Watched, ProtoStep, BookStep, CalmStep, LineStep, Episode, PlayChunk;
    if m.phase == Thinking {
      BeginSpeakingLine(c, m);
      BeginSpeakingKeeps(c, m);
    }
    PlayChunkLine(c, BeginSpeaking(m), chunk, env);
  }

  lemma FillerLine(c: Config, m: Machine, env: Env)
    requires LineInv(m) && Inv(c, m)
    ensures LineInv(OnFiller(m, env))
  {
    hide Watched, ProtoStep, BookStep, CalmStep, WriteClip, Episode;
    if m.phase == Thinking && env.clip.Some? {
      WriteClipLine(m.(reply := m.reply.(fillerC := false)), env.clip.value, env);
    }
  }

  lemma StepLine(c: Config, m: Machine, i: Input)
    requires LineInv(m) && Inv(c, m)
    ensures LineInv(Step(c, m, i))
  {
    hide Watched, ProtoStep, BookStep, CalmStep, LineStep, OnFrame, OnStt, OnChunk, OnFiller,
      CompleteAgentTurn, Episode;
    if Enabled(m, i) && !Faults(m, i) {
      match i
      case Frame(loud, env) => FrameLine(c, m, loud, env);
      case Stt(r, env) => SttLine(c, m, r, env);
      case SttClosed =>
      case TtsChunk(chunk, env) => ChunkLine(c, m, chunk, env);
      case TtsClosed => if m.phase == Thinking {
        CompleteLine(c, m.(reply := m.reply.(ttsCh := None, ttsDone := true)));
      }
      case FillerFired(env) => FillerLine(c, m, env);
    }
  }

  lemma {:induction false} RunLine(c: Config, inputs: seq<Input>)
    ensures LineInv(Run(c, inputs))
  {
    if inputs != [] {
      RunLine(c, inputs[..|inputs| - 1]);
      RunKeeps(c, inputs[..|inputs| - 1]);
      StepLine(c, Run(c, inputs[..|inputs| - 1]), inputs[|inputs| - 1]);
    }
  }

  // --- what the formula is worth

  /** What the line took of the reply it plays: all that was written, less the failed writes. */
  function Accepted(l: Line): nat { l.played + Count(l.queue, l.of) }

  /** What the line has played of a reply, in closed form: nothing before the lag is over,
      then one millisecond per millisecond up to what it took. */
  lemma LinePlaysAfterLag(l: Line, elapsed: int, written: int, live: Option<nat>)
    requires Episode(l, elapsed, written, live)
    ensures l.played == Max(0, Min(elapsed - l.lag, Accepted(l)))
    ensures Accepted(l) <= written && (!l.lost ==> Accepted(l) == written)
  {}

  /** The formula and the closed form agree: at the start, or without lag until the line runs
      out of what it took, or once it took all and has played it, or without lag. */
  predicate Agree(elapsed: int, lag: int, accepted: int, written: int, left: int) {
    || elapsed == 0
    || (lag == 0 && elapsed <= accepted)
    || (accepted == written && (lag == 0 || left == 0))
  }

  /** In every run, while the agent speaks, whatever writes failed: the formula never claims
      less than the line played, and is exact if and only if the reply just began; or the line
      has no lag (nothing queued when the reply began, never silent before a later chunk) and not
      more time has passed than it took audio for; or it took everything written, and has no lag
      or has played it all. */
  lemma PlayedMsAgainstLine(c: Config, inputs: seq<Input>, m: Machine)
    requires m == Run(c, inputs) && m.phase == Speaking
    ensures m.reply.tracker.Some?
    ensures var l, written := m.seen.line, m.reply.tracker.value.writtenMs;
            && PlayedMs(m) >= l.played
            && (PlayedMs(m) == l.played <==> Agree(Elapsed(m), l.lag, Accepted(l), written, Count(l.queue, l.of)))
  {
    hide Run, Count, Watched;
    RunLine(c, inputs);
    LinePlaysAfterLag(m.seen.line, Elapsed(m), m.reply.tracker.value.writtenMs, m.reply.turnCancel);
  }

  // --- what is recorded

  /** A later reading of the clock hears no fewer words, and the same number exactly when the words
      it hears had all ended before. */
  lemma HeardLater(words: seq<WordTiming>, a: int, b: int)
    requires a <= b
    ensures HeardCount(words, a) <= HeardCount(words, b)
    ensures HeardCount(words, a) == HeardCount(words, b) <==> AllEnded(words, HeardCount(words, b), a)
  {
    HeardIsLongestPrefix(words, a, HeardCount(words, a));
    HeardIsLongestPrefix(words, b, HeardCount(words, a));
    HeardIsLongestPrefix(words, a, HeardCount(words, b));
  }

  /** In every run, at a barge-in: the words that had ended on the line itself, less the offset,
      are never more than the words recorded, and as many exactly when all words recorded had
      ended there; so they are the same words when the formula is exact. */
  lemma BargeInRecordsWhatTheLinePlayed(c: Config, inputs: seq<Input>, m: Machine)
    requires m == Run(c, inputs) && m.phase == Speaking
    ensures m.reply.tracker.Some?
    ensures var t, onLine := m.reply.tracker.value, Max(0, m.seen.line.played - c.playoutOffsetMs);
            var k, n := HeardCount(t.words, Max(0, PlayedMs(m) - c.playoutOffsetMs)), HeardCount(t.words, onLine);
            var heard := Join(WordsOf(t.words[..k]));
            && InterruptedText(m) == (if k < |t.words| then Marked(heard) else TrimSpace(heard + " " + CUT))
            && n <= k
            && (n == k <==> AllEnded(t.words, k, onLine))
            && (PlayedMs(m) == m.seen.line.played ==> n == k)
  {
    hide Run, Count, Watched, HeardCount, AllEnded, Agree;
    PlayedMsAgainstLine(c, inputs, m);
    RunKeeps(c, inputs);
    var t := m.reply.tracker.value;
    HeardLater(t.words, Max(0, m.seen.line.played - c.playoutOffsetMs), Max(0, PlayedMs(m) - c.playoutOffsetMs));
  }

  /** A natural completion records the whole utterance exactly when every word ends within
      what was written; the playout offset plays no part. */
  lemma CompletionRecordsFullText(c: Config, m: Machine)
    requires Inv(c, m) && m.phase == Speaking
    requires PlayedMs(m) >= m.reply.tracker.value.writtenMs >= 0
    ensures var t := m.reply.tracker.value;
            var (text, cut) := SpokenBy(t, PlayedMs(m) + c.playoutOffsetMs);
            && (!cut <==> forall i :: 0 <= i < |t.words| ==> t.words[i].endMs <= t.writtenMs)
            && (!cut ==> text == Whole(t))
  {
    UncutIffAllWordsEnded(m.reply.tracker.value, PlayedMs(m) + c.playoutOffsetMs);
  }

  // --- the tracker over a run

  ghost predicate Timed(t: Option<Tracker>) {
    t.Some? ==> 0 <= t.value.writtenMs
                && forall i :: 0 <= i < |t.value.words| ==> t.value.words[i].endMs <= t.value.writtenMs
  }

  /** The tracker is kept or replaced by an empty one. */
  ghost predicate KeptOrFresh(c: Config, t: Option<Tracker>, u: Option<Tracker>) {
    u == t || u == Some(Tracker(c.playoutOffsetMs, 0, []))
  }

  lemma FailTurnTracker(m: Machine, env: Env)
    ensures FailTurn(m, env).reply.tracker == m.reply.tracker
  {
    hide Watched, ProtoStep, BookStep, CalmStep, LineStep;
  }

  lemma FinalizeTracker(c: Config, m: Machine, env: Env)
    ensures KeptOrFresh(c, m.reply.tracker, FinalizeUserTurn(c, m, env).reply.tracker)
  {
    hide Watched, ProtoStep, BookStep, CalmStep, LineStep, FailTurn, Draft;
    if Draft(m.words) != "" {
      var m1 := OpenReply(DeliverUserTurn(m, Draft(m.words)));
      FailTurnTracker(Emit(m1, Failed("agent")), env);
      FailTurnTracker(Emit(m1, Failed("tts")), env);
    }
  }

  lemma CompleteTracker(c: Config, m: Machine)
    ensures CompleteAgentTurn(c, m).reply.tracker == m.reply.tracker
  {
    hide Watched, ProtoStep, BookStep, CalmStep, LineStep, SpokenBy;
  }

  lemma FrameTracker(c: Config, m: Machine, loud: bool, env: Env)
    ensures KeptOrFresh(c, m.reply.tracker, OnFrame(c, m, loud, env).reply.tracker)
  {
    hide Watched, ProtoStep, BookStep, CalmStep, LineStep, Advance, FinalizeUserTurn, CompleteAgentTurn,
      DuckOnOnset, UnduckWhenUnconfirmed, Draft, WaitForMs;
    AdvanceIs(c, m, loud, env);
    var m1 := Advance(c, m, loud, env);
    FinalizeTracker(c, m1, env);
    var onset := m1.clock.prevSpeaking && !m.clock.prevSpeaking;
    DuckingStill(c, m1, onset);
    CompleteTracker(c, UnduckWhenUnconfirmed(c, DuckOnOnset(m1, onset)));
  }

  lemma BargeInTracker(m: Machine, r: Result, env: Env)
    ensures ConfirmBargeIn(m, r, env).reply.tracker == m.reply.tracker
  {
    hide Watched, ProtoStep, BookStep, CalmStep, LineStep, InterruptedText, TrimSpace, AbsorbAsSpeech, Report, Unduck;
    var m1 := Emit(CancelTurn(m), Flushed(env.flushOk));
    ReportStill(m1, env.flushOk, "playback");
    UnduckStill(FlushLine(CancelTurn(m), env));
    var m2 := Unduck(FlushLine(CancelTurn(m), env));
    AbsorbStill(ResetDraft(Emit(Emit(m2, AgentTurn(InterruptedText(m), true)), BargeIn(r.text))), r);
  }

  lemma SttTracker(c: Config, m: Machine, r: Result, env: Env)
    ensures OnStt(c, m, r, env).reply.tracker == m.reply.tracker
  {
    hide Watched, ProtoStep, BookStep, CalmStep, LineStep, ConfirmBargeIn, IsBackchannel, RealTextLen,
      AbsorbAsSpeech, TrimSpace, SwitchLocale, Unduck;
    SwitchLocaleStill(m, r);
    var m2 := Emit(SwitchLocale(m, r), Heard);
    AbsorbStill(m2, r);
    AbsorbStill(Rethink(m2), r);
    BargeInTracker(m2, r, env);
    UnduckStill(m2);
  }

  lemma ChunkTracker(m: Machine, chunk: Chunk, env: Env)
    requires m.reply.ttsCh.Some? && m.reply.tracker.Some?
    ensures OnChunk(m, chunk, env).reply.tracker == Some(Extend(m.reply.tracker.value, chunk))
  {
    hide Watched, ProtoStep, BookStep, CalmStep, LineStep, Extend;
  }

  lemma FillerTracker(m: Machine, env: Env)
    ensures OnFiller(m, env).reply.tracker == m.reply.tracker
  {
    hide Watched, ProtoStep, BookStep, CalmStep, LineStep;
  }

  /** In every run whose chunks carry words that end inside them, every tracked word ends
      within what was written, so every natural completion records the full text. */
  lemma {:induction false} WellTimedChunksStayTimed(c: Config, inputs: seq<Input>)
    requires forall i :: i in inputs && i.TtsChunk? ==> WordsInside(i.chunk)
    ensures Timed(Run(c, inputs).reply.tracker)
  {
    hide Watched, ProtoStep, BookStep, CalmStep, LineStep, OnFrame, OnStt, OnChunk, OnFiller, CompleteAgentTurn;
    if inputs != [] {
      var m, i := Run(c, inputs[..|inputs| - 1]), inputs[|inputs| - 1];
      WellTimedChunksStayTimed(c, inputs[..|inputs| - 1]);
      if Enabled(m, i) && !Faults(m, i) {
        match i
        case Frame(loud, env) => FrameTracker(c, m, loud, env);
        case Stt(r, env) => SttTracker(c, m, r, env);
        case SttClosed =>
        case TtsChunk(chunk, env) =>
          ChunkTracker(m, chunk, env);
          assert WordsInside(chunk);
        case TtsClosed => CompleteTracker(c, m.(reply := m.reply.(ttsCh := None, ttsDone := true)));
        case FillerFired(env) => FillerTracker(m, env);
      }
    }
  }

  lemma CompleteLog(c: Config, m: Machine)
    requires m.phase == Speaking && m.reply.tracker.Some?
    ensures var text, log := SpokenBy(m.reply.tracker.value, PlayedMs(m) + c.playoutOffsetMs).0,
                             CompleteAgentTurn(c, m).seen.log;
            |log| >= 3 && log[|log| - 3] == AgentTurn(text, false)
  {
    hide Watched, ProtoStep, BookStep, CalmStep, LineStep, SpokenBy;
    CancelStill(m);
  }

  /** In every run whose chunks carry words that end inside them, a frame that ends a stay in
      speaking reports the agent's turn with everything that was said, uncut. */
  lemma CompletedTurnsAreWhole(c: Config, inputs: seq<Input>, i: Input)
    requires forall i :: i in inputs && i.TtsChunk? ==> WordsInside(i.chunk)
    requires i.Frame? && Run(c, inputs).phase == Speaking && Run(c, inputs + [i]).phase != Speaking
    ensures Run(c, inputs).reply.tracker.Some?
    ensures var log := Run(c, inputs + [i]).seen.log;
            |log| >= 3 && log[|log| - 3] == AgentTurn(Whole(Run(c, inputs).reply.tracker.value), false)
  {
    hide Run, Watched, ProtoStep, BookStep, CalmStep, LineStep, Advance, CompleteAgentTurn, DuckOnOnset,
      UnduckWhenUnconfirmed, SpokenBy, Whole, Report;
    var m := Run(c, inputs);
    RunNext(c, inputs, i);
    RunKeeps(c, inputs);
    WellTimedChunksStayTimed(c, inputs);
    AdvanceIs(c, m, i.loud, i.env);
    AdvanceKeeps(c, m, i.loud, i.env);
    var m1 := Advance(c, m, i.loud, i.env);
    var onset := m1.clock.prevSpeaking && !m.clock.prevSpeaking;
    DuckingStill(c, m1, onset);
    var m2 := UnduckWhenUnconfirmed(c, DuckOnOnset(m1, onset));
    DuckingKeeps(c, m1, onset);
    CompleteLog(c, m2);
    CompletionRecordsFullText(c, m2);
  }

  lemma RunNext(c: Config, inputs: seq<Input>, i: Input)
    ensures Run(c, inputs + [i]) == Step(c, Run(c, inputs), i)
  {
    hide Step;
    assert (inputs + [i])[..|inputs|] == inputs;
  }
}
