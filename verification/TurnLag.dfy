/** The playout formula on a line that still has a filler to play: a run. */
module TurnLag {
  import opened Common
  import opened Text
  import opened Playout
  import opened Endpoint
  import opened TurnWatch
  import opened TurnModel
  import opened TurnDucking
  import opened TurnRepeats
  import TurnLine
  import TurnCalm
  import Meter

  const CLIP := FINE.(clip := Some(100))

  const FILLER_AHEAD: seq<Input> := [
    HI, Frame(false, FINE), Frame(false, FINE), FillerFired(CLIP), TtsChunk(Chunk(20, []), FINE), Frame(false, FINE)]

  ghost predicate LineHas(m: Machine, queue: seq<Option<nat>>) {
    m.seen.line.queue == queue && !m.volume.ducked
  }

  lemma FirstSteps(m: Machine)
    requires m == Initial(QuickConfig())
    ensures LineHas(Step(QuickConfig(), m, HI), [])
  {
    hide Watched, ProtoStep, BookStep, CalmStep, TrimSpace;
  }

  /** A quiet frame of an idle line, whatever the machine does with it. */
  lemma IdlePauses(m: Machine)
    requires m.phase == Listening && LineHas(m, [])
    ensures LineHas(Step(QuickConfig(), m, Frame(false, FINE)), [])
  {
    hide Watched, ProtoStep, BookStep, CalmStep, Draft, Meter.Next;
  }

  /** The reply pipeline as it stands when a turn was just delivered. */
  ghost predicate Opened(m: Machine) {
    && LineHas(m, []) && m.phase == Thinking && m.reply.fillerC
    && m.reply.ttsCh.Some? && !m.reply.ttsDone && m.reply.tracker == Some(Tracker(0, 0, []))
    && m.seen.proto.live == m.reply.ttsCh
  }

  lemma TurnOpens(m: Machine)
    requires m.phase == Endpointing && Draft(m.words) != "" && LineHas(m, [])
    ensures Opened(FinalizeUserTurn(QuickConfig(), m, FINE))
    ensures FinalizeUserTurn(QuickConfig(), m, FINE).clock == m.clock
  {
    hide Watched, BookStep, CalmStep, Draft, FailTurn;
  }

  lemma ReplyOpens(m: Machine)
    requires Stands(m, Endpointing, 20, 0, Words("", ["hi"], ""), []) && LineHas(m, [])
    ensures var r := Step(QuickConfig(), m, Frame(false, FINE));
            Opened(r) && r.clock == Clock(40, 0, false, Meter.INITIAL)
  {
    hide Watched, ProtoStep, BookStep, CalmStep, Draft, WaitForMs, FinalizeUserTurn, Opened;
    HiIsDraft();
    ZeroWait(QuickConfig(), "hi", m.locale);
    TurnOpens(Advance(QuickConfig(), m, false, FINE));
  }

  lemma FillerPlays(m: Machine)
    requires m.phase == Thinking && m.reply.fillerC && LineHas(m, [])
    ensures var r := Step(QuickConfig(), m, FillerFired(CLIP));
            && LineHas(r, Copies(None, 100)) && r.phase == Thinking && r.clock == m.clock
            && r.reply == m.reply.(fillerC := false) && r.seen.proto.live == m.seen.proto.live
  {
    hide Watched, BookStep, CalmStep;
  }

  lemma ReplySpeaks(m: Machine)
    requires m.phase == Thinking && LineHas(m, Copies(None, 100)) && m.reply.ttsCh.Some?
    requires m.reply.tracker == Some(Tracker(0, 0, [])) && m.seen.proto.live == m.reply.ttsCh
    ensures var r := Step(QuickConfig(), m, TtsChunk(Chunk(20, []), FINE));
            && LineHas(r, Copies(None, 100) + Copies(m.reply.ttsCh, 20)) && r.phase == Speaking
            && r.seen.line.of == m.reply.ttsCh && r.seen.line.played == 0 && r.reply.ttsDone == m.reply.ttsDone
            && r.reply.tracker.Some? && r.reply.tracker.value.writtenMs == 20
            && r.reply.speakStartMs == m.clock.mediaMs && r.clock == m.clock
  {
    hide Watched, BookStep, CalmStep;
  }

  lemma FramePlaysFiller(m: Machine, live: Option<nat>)
    requires m.phase == Speaking && live.Some? && LineHas(m, Copies(None, 100) + Copies(live, 20))
    requires m.seen.line.of == live && m.seen.line.played == 0 && !m.reply.ttsDone
    requires m.reply.tracker.Some? && m.reply.tracker.value.writtenMs == 20
    requires m.clock.mediaMs == m.reply.speakStartMs && m.clock.meter == Meter.INITIAL && !m.clock.prevSpeaking
    ensures var r := Step(QuickConfig(), m, Frame(false, FINE));
            r.phase == Speaking && PlayedMs(r) == 20 && r.seen.line.played == 0
  {
    hide Watched, ProtoStep, BookStep, CalmStep, Count;
    var queue := Copies(None, 100) + Copies(live, 20);
    TurnLine.CountUniform(queue[..20], live, false);
  }

  lemma UntilThinking()
    ensures var m := Run(QuickConfig(), FILLER_AHEAD[..3]); Opened(m) && m.clock == Clock(40, 0, false, Meter.INITIAL)
  {
    hide Run, Step, Draft, Delivered, LineHas, Opened;
    var c, t := QuickConfig(), FILLER_AHEAD;
    HiIsDraft();
    RunEmpty(c);
    assert t[..0] == [];
    RunStep(c, t, 1);
    HiHeard(Run(c, t[..0]));
    FirstSteps(Run(c, t[..0]));
    RunStep(c, t, 2);
    QuietPauses(Run(c, t[..1]), FINE, 0, 0, Words("", ["hi"], ""), []);
    IdlePauses(Run(c, t[..1]));
    RunStep(c, t, 3);
    ReplyOpens(Run(c, t[..2]));
  }

  /** `playedMs` claims 20 ms heard of a reply of which the line has played nothing: it is still
      playing the filler. */
  lemma FillerAheadOfReply()
    ensures var m := Run(QuickConfig(), FILLER_AHEAD);
            m.phase == Speaking && PlayedMs(m) == 20 && m.seen.line.played == 0
  {
    hide Run, Step, LineHas, PlayedMs, Copies, Opened;
    var c, t := QuickConfig(), FILLER_AHEAD;
    UntilThinking();
    assert t[..6] == t;
    RunStep(c, t, 4);
    RunStep(c, t, 5);
    RunStep(c, t, 6);
    FillerThenReply(Run(c, t[..3]));
  }

  lemma FillerThenReply(m: Machine)
    requires Opened(m) && m.clock == Clock(40, 0, false, Meter.INITIAL)
    ensures var c := QuickConfig();
            var r := Step(c, Step(c, Step(c, m, FillerFired(CLIP)), TtsChunk(Chunk(20, []), FINE)), Frame(false, FINE));
            r.phase == Speaking && PlayedMs(r) == 20 && r.seen.line.played == 0
  {
    hide Step, LineHas, PlayedMs, Copies;
    FillerPlays(m);
    var u := Step(QuickConfig(), m, FillerFired(CLIP));
    ReplySpeaks(u);
    FramePlaysFiller(Step(QuickConfig(), u, TtsChunk(Chunk(20, []), FINE)), u.reply.ttsCh);
  }

  // --- a write that fails

  const YES := WordTiming("yes", 0, 20)

  const WRITE_FAILS: seq<Input> := [
    HI, Frame(false, FINE), Frame(false, FINE), TtsChunk(Chunk(20, [YES]), FINE.(writeOk := false)), Frame(false, FINE)]

  /** The chunk is tracked before it is written, and the line does not take it. */
  lemma ReplyUnheard(m: Machine)
    requires Opened(m)
    ensures var r := Step(QuickConfig(), m, TtsChunk(Chunk(20, [YES]), FINE.(writeOk := false)));
            && LineHas(r, []) && r.phase == Speaking && r.seen.line.played == 0 && r.seen.line.lag == 0
            && r.reply.tracker == Some(Tracker(0, 20, [YES])) && !r.reply.ttsDone
            && r.reply.speakStartMs == m.clock.mediaMs && r.clock == m.clock
  {
    hide Watched, BookStep, CalmStep;
    assert [] + Rebase([YES], 0) == [YES];
  }

  lemma FramePlaysNothing(m: Machine)
    requires m.phase == Speaking && LineHas(m, []) && m.seen.line.played == 0 && m.seen.line.lag == 0
    requires m.reply.tracker == Some(Tracker(0, 20, [YES])) && !m.reply.ttsDone
    requires m.clock.mediaMs == m.reply.speakStartMs && m.clock.meter == Meter.INITIAL && !m.clock.prevSpeaking
    ensures var r := Step(QuickConfig(), m, Frame(false, FINE));
            && r.phase == Speaking && PlayedMs(r) == 20 && r.reply.tracker == m.reply.tracker
            && r.seen.line.played == 0 && r.seen.line.lag == 0 && r.seen.line.queue == []
  {
    hide Watched, ProtoStep, BookStep, CalmStep;
  }

  lemma UntilUnheard()
    ensures Run(QuickConfig(), WRITE_FAILS[..3]) == Run(QuickConfig(), FILLER_AHEAD[..3])
  {
    assert WRITE_FAILS[..3] == FILLER_AHEAD[..3];
  }

  /** The same on a line without lag whose write failed: 20 ms and a word are claimed that the
      caller never heard. */
  lemma FailedWriteClaimsWord()
    ensures var m := Run(QuickConfig(), WRITE_FAILS);
            && m.phase == Speaking && PlayedMs(m) == 20
            && m.seen.line.played == 0 && m.seen.line.lag == 0 && m.seen.line.queue == []
            && m.reply.tracker == Some(Tracker(0, 20, [YES]))
            && HeardCount([YES], PlayedMs(m)) == 1 && HeardCount([YES], m.seen.line.played) == 0
  {
    hide Run, Step, LineHas, PlayedMs, Opened;
    var c, t := QuickConfig(), WRITE_FAILS;
    UntilUnheard();
    UntilThinking();
    assert t[..5] == t;
    RunStep(c, t, 4);
    RunStep(c, t, 5);
    ReplyUnheard(Run(c, t[..3]));
    FramePlaysNothing(Run(c, t[..4]));
    assert [YES][1..] == [];
  }
}
