/** The inductive invariant of the turn machine and the turn-taking protocol it keeps over
    every interleaving of its inputs. */
module TurnProtocol {
  import opened Common
  import opened Text
  import opened Playout
  import opened Endpoint
  import opened TurnWatch
  import opened TurnModel

  /** Which resources each state holds. */
  ghost predicate Owned(c: Config, s: Phase, r: Reply) {
    && (r.fillerC ==> r.fillerTimer)
    && match s
       case Thinking =>
         && r.turnCancel.Some? && r.turnCancel.value + 1 == r.replies
         && r.ttsCh == r.turnCancel && !r.ttsDone
         && r.tracker == Some(Tracker(c.playoutOffsetMs, 0, []))
       case Speaking =>
         && r.turnCancel.Some? && r.turnCancel.value + 1 == r.replies
         && r.ttsCh == (if r.ttsDone then None else r.turnCancel)
         && !r.fillerTimer
         && r.tracker.Some? && r.tracker.value.offsetMs == c.playoutOffsetMs
       case _ =>
         && r.turnCancel.None? && r.ttsCh.None? && !r.ttsDone && !r.fillerTimer
  }

  /** The protocol observer saw only allowed acts and is in the state the machine is in. */
  ghost predicate Agrees(m: Machine) {
    m.seen.proto == Proto(true, m.phase, m.reply.turnCancel, m.reply.replies, m.volume.ducked, false)
  }

  ghost predicate Inv(c: Config, m: Machine) {
    Owned(c, m.phase, m.reply) && Agrees(m)
  }

  // --- the building blocks; each proof below looks inside one handler only

  lemma ReportKeeps(m: Machine, ok: bool, stage: string)
    ensures var r := Report(m, ok, stage);
            r == m.(seen := r.seen) && r.seen.proto == m.seen.proto
  {
    hide Watched, BookStep, CalmStep, LineStep;
  }

  lemma CancelKeeps(m: Machine)
    requires m.seen.proto.live == m.reply.turnCancel
    ensures var r := CancelTurn(m);
            && r == m.(reply := Released(m.reply), seen := r.seen)
            && r.seen.proto == m.seen.proto.(live := None)
  {
    hide Watched, BookStep, CalmStep, LineStep;
  }

  /** A reported failure or a clip leaves machine and protocol as they are. */
  lemma WriteClipKeeps(m: Machine, ms: nat, env: Env)
    requires Allowed(m.seen.proto, ClipWritten(ms, env.writeOk))
    ensures var r := WriteClip(m, ms, env);
            r == m.(seen := r.seen) && r.seen.proto == m.seen.proto
  {
    hide Watched, BookStep, CalmStep, LineStep, Report;
    ReportKeeps(Emit(m, ClipWritten(ms, env.writeOk)), env.writeOk, "playback");
  }

  lemma AdvanceKeeps(c: Config, m: Machine, loud: bool, env: Env)
    requires Inv(c, m)
    ensures Inv(c, Advance(c, m, loud, env)) && Advance(c, m, loud, env).phase == m.phase
  {
    hide Watched, BookStep, CalmStep, LineStep, Report;
    ReportKeeps(m, env.sttOk, "stt");
  }

  lemma FailTurnKeeps(c: Config, m: Machine, env: Env)
    requires m.phase == Endpointing && Agrees(m)
    ensures Inv(c, FailTurn(m, env))
  {
    hide Watched, BookStep, CalmStep, LineStep, CancelTurn, WriteClip;
    CancelKeeps(m);
    if env.clip.Some? {
      WriteClipKeeps(CancelTurn(m), env.clip.value, env);
    }
  }

  lemma StartKeeps(c: Config, m: Machine, env: Env)
    requires Inv(c, m) && m.phase == Endpointing
    ensures Inv(c, StartAgentTurn(c, m, env))
  {
    hide Watched, BookStep, CalmStep, LineStep, FailTurn;
    var m1 := OpenReply(m);
    assert Agrees(m1) && m1.phase == Endpointing;
    if !env.agentOk {
      FailTurnKeeps(c, Emit(m1, Failed("agent")), env);
    } else if !env.speakOk {
      FailTurnKeeps(c, Emit(m1, Failed("tts")), env);
    }
  }

  lemma FinalizeKeeps(c: Config, m: Machine, env: Env)
    requires Inv(c, m) && m.phase == Endpointing
    ensures Inv(c, FinalizeUserTurn(c, m, env))
  {
    hide Watched, BookStep, CalmStep, LineStep, StartAgentTurn, Draft;
    if Draft(m.words) != "" {
      StartKeeps(c, DeliverUserTurn(m, Draft(m.words)), env);
    }
  }

  lemma CompleteKeeps(c: Config, m: Machine)
    requires Agrees(m) && m.reply.turnCancel.Some?
    requires m.phase == Speaking
             || (m.phase == Thinking && m.reply.tracker == Some(Tracker(c.playoutOffsetMs, 0, [])))
    ensures Inv(c, CompleteAgentTurn(c, m))
  {
    hide Watched, BookStep, CalmStep, LineStep, CancelTurn;
    CancelKeeps(m);
  }

  lemma DuckingKeeps(c: Config, m: Machine, onset: bool)
    requires Inv(c, m) && m.phase == Speaking
    ensures var r := UnduckWhenUnconfirmed(c, DuckOnOnset(m, onset));
            Inv(c, r) && r == m.(volume := r.volume, seen := r.seen)
  {
    hide Watched, BookStep, CalmStep, LineStep;
    assert Inv(c, DuckOnOnset(m, onset));
  }

  lemma FrameKeeps(c: Config, m: Machine, loud: bool, env: Env)
    requires Inv(c, m)
    ensures Inv(c, OnFrame(c, m, loud, env))
  {
    hide Watched, BookStep, CalmStep, LineStep, Advance, FinalizeUserTurn, CompleteAgentTurn, DuckOnOnset,
      UnduckWhenUnconfirmed, CancelTurn, Draft, WaitForMs;
    AdvanceKeeps(c, m, loud, env);
    var m1 := Advance(c, m, loud, env);
    CancelKeeps(m1);
    if m.phase == Endpointing {
      FinalizeKeeps(c, m1, env);
    } else if m.phase == Speaking {
      var onset := m1.clock.prevSpeaking && !m.clock.prevSpeaking;
      DuckingKeeps(c, m1, onset);
      CompleteKeeps(c, UnduckWhenUnconfirmed(c, DuckOnOnset(m1, onset)));
    }
  }

  /** The cut of a barge-in leaves the protocol speaking, with no reply and no ducking. */
  lemma CutKeeps(c: Config, m: Machine, env: Env)
    requires Inv(c, m) && m.phase == Speaking
    ensures var r := Unduck(FlushLine(CancelTurn(m), env));
            && r == m.(reply := Released(m.reply), volume := r.volume, seen := r.seen)
            && r.volume.ducked == false
            && r.seen.proto == m.seen.proto.(live := None, ducked := false)
  {
    hide Watched, BookStep, CalmStep, LineStep, CancelTurn, Report;
    CancelKeeps(m);
    var m1 := CancelTurn(m);
    ReportKeeps(Emit(m1, Flushed(env.flushOk)), env.flushOk, "playback");
  }

  lemma {:induction false} TrimKeepsSolidEnd(s: string)
    requires s != "" && !IsSpace(s[|s| - 1])
    ensures TrimSpace(s) != "" && TrimSpace(s)[|TrimSpace(s)| - 1] == s[|s| - 1]
    decreases |s|
  {
    if IsSpace(s[0]) {
      TrimKeepsSolidEnd(s[1..]);
    }
  }

  lemma InterruptedIsMarked(m: Machine)
    requires m.reply.tracker.Some?
    ensures IsMarked(InterruptedText(m))
  {
    var (text, cut) := SpokenBy(m.reply.tracker.value, PlayedMs(m));
    assert |CUT| == 1 && CUT[0] == '—';
    if !cut {
      TrimKeepsSolidEnd(text + " " + CUT);
    }
  }

  lemma BargeInKeeps(c: Config, m: Machine, r: Result, env: Env)
    requires Inv(c, m) && m.phase == Speaking
    ensures Inv(c, ConfirmBargeIn(m, r, env))
  {
    hide Watched, BookStep, CalmStep, LineStep, CancelTurn, FlushLine, Unduck, InterruptedText;
    hide IsMarked;
    CutKeeps(c, m, env);
    InterruptedIsMarked(m);
    CutReportsKeep(c, CutLine(m, env), InterruptedText(m), r);
  }

  /** After the cut: the agent turn, the barge-in, the reset, the caller's words. */
  lemma CutReportsKeep(c: Config, m: Machine, text: string, r: Result)
    requires m.phase == Speaking && Owned(c, Listening, m.reply) && !m.volume.ducked && IsMarked(text)
    requires m.seen.proto == Proto(true, Speaking, None, m.reply.replies, false, false)
    ensures var told := Emit(Emit(m, AgentTurn(text, true)), BargeIn(r.text));
            Inv(c, SetState(AbsorbAsSpeech(ResetDraft(told), r), Listening))
  {
    hide Watched, BookStep, CalmStep, LineStep, IsMarked, TrimSpace;
  }

  lemma SwitchLocaleKeeps(m: Machine, r: Result)
    ensures var s := SwitchLocale(m, r);
            s == m.(locale := s.locale, seen := s.seen) && s.seen.proto == m.seen.proto
  {
    hide Watched, BookStep, CalmStep, LineStep;
  }

  lemma SpeakingSttKeeps(c: Config, m: Machine, r: Result, env: Env)
    requires Inv(c, m) && m.phase == Speaking
    ensures Inv(c, OnSpeakingStt(c, m, r, env))
  {
    hide Watched, BookStep, CalmStep, LineStep, ConfirmBargeIn, IsBackchannel, RealTextLen;
    BargeInKeeps(c, m, r, env);
  }

  lemma AbsorbKeeps(m: Machine, r: Result)
    ensures var s := AbsorbAsSpeech(m, r);
            && s == m.(words := s.words, clock := s.clock, seen := s.seen)
            && s.seen.proto == m.seen.proto
  {
    hide Watched, BookStep, CalmStep, LineStep, TrimSpace;
  }

  lemma SttKeeps(c: Config, m: Machine, r: Result, env: Env)
    requires Inv(c, m)
    ensures Inv(c, OnStt(c, m, r, env))
  {
    hide Watched, BookStep, CalmStep, LineStep, OnSpeakingStt, IsBackchannel, CancelTurn, SwitchLocale,
      AbsorbAsSpeech, TrimSpace;
    SwitchLocaleKeeps(m, r);
    var m2 := Emit(SwitchLocale(m, r), Heard);
    AbsorbKeeps(m2, r);
    if m.phase == Thinking {
      CancelKeeps(m2);
      AbsorbKeeps(Rethink(m2), r);
    } else if m.phase == Speaking {
      SpeakingSttKeeps(c, m2, r, env);
    }
  }

  lemma ChunkKeeps(c: Config, m: Machine, chunk: Chunk, env: Env)
    requires Inv(c, m) && m.reply.ttsCh.Some?
    ensures m.reply.tracker.Some? && Inv(c, OnChunk(m, chunk, env))
  {
    hide Watched, BookStep, CalmStep, LineStep, Report, Extend;
    var m1 := BeginSpeaking(m);
    var m2 := Emit(m1, ChunkWritten(m.reply.ttsCh.value, chunk.durationMs, env.writeOk))
              .(reply := m1.reply.(tracker := Some(Extend(m1.reply.tracker.value, chunk))));
    ExtendOffset(m1.reply.tracker.value, chunk);
    ReportKeeps(m2, env.writeOk, "playback");
  }

  lemma ExtendOffset(t: Tracker, chunk: Chunk)
    ensures Extend(t, chunk).offsetMs == t.offsetMs
  {}

  lemma FillerKeeps(c: Config, m: Machine, env: Env)
    requires Inv(c, m)
    ensures Inv(c, OnFiller(m, env))
  {
    hide Watched, BookStep, CalmStep, LineStep, WriteClip;
    if m.phase == Thinking && env.clip.Some? {
      WriteClipKeeps(m.(reply := m.reply.(fillerC := false)), env.clip.value, env);
    }
  }

  lemma StepKeeps(c: Config, m: Machine, i: Input)
    requires Inv(c, m)
    ensures Inv(c, Step(c, m, i)) && !Faults(m, i)
  {
    hide Watched, BookStep, CalmStep, LineStep, OnFrame, OnStt, OnChunk, OnFiller, CompleteAgentTurn;
    if Enabled(m, i) {
      match i
      case Frame(loud, env) => FrameKeeps(c, m, loud, env);
      case Stt(r, env) => SttKeeps(c, m, r, env);
      case SttClosed =>
      case TtsChunk(chunk, env) => ChunkKeeps(c, m, chunk, env);
      case TtsClosed => if m.phase == Thinking {
        CompleteKeeps(c, m.(reply := m.reply.(ttsCh := None, ttsDone := true)));
      }
      case FillerFired(env) => FillerKeeps(c, m, env);
    }
  }

  /** Every run keeps the resource discipline and every act of every run was allowed by the
      protocol. */
  lemma {:induction false} RunKeeps(c: Config, inputs: seq<Input>)
    ensures Inv(c, Run(c, inputs))
  {
    if inputs != [] {
      RunKeeps(c, inputs[..|inputs| - 1]);
      StepKeeps(c, Run(c, inputs[..|inputs| - 1]), inputs[|inputs| - 1]);
    }
  }
}
