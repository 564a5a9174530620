# FrontDesk: what holds over every run

FrontDesk answers a small business's phone. A gateway written in Go runs one turn
machine per call, moves audio, folds events into snapshots, bills and notifies; an
agent runtime written in Python conducts the dialogue and emits the events. This
project models the parts whose correctness depends on order, repetition and failure,
and proves what they keep over every run, every delivery and every interleaving.

Each component that updates its fields in place is a class whose methods are proved
to do to the fields what a function does to a value; the properties are lemmas about
those functions and about whole runs of them. Collaborators outside the code (clock,
network, carrier, calendar, model, regular expressions, dictionaries, character
tables) are parameters, quantified over all their behaviours, failures included.

## The modules

- The turn machine: `Text`, `Meter` (voice activity), `Playout` (what the caller heard),
  `Endpoint` (how long to wait), `TurnWatch` (the log of what the machine did to the
  outside and four observers of it), `TurnModel` (the machine as a value), `TurnProtocol`
  (its inductive invariant), `TurnLog` (what the protocol means for positions of the log),
  `TurnWords` (no word is lost), `TurnCalm` (when a turn fires), `TurnLine` (the playout
  formula against a simulated telephone line), `TurnDucking`, `TurnRepeats` (when a user turn
  is delivered again), `TurnLag` (lines that play less than is claimed), `TurnMachine` (the
  object).
- Event sourcing: `Events`, `EventFold`, `EventSourcing` (emitter, flush, bus), `Billing`.
- Streams and failure: `Jitter`, `SttRing`, `Breaker`, `Hedge`, `RetryStorm` (both together),
  `Rtp`, `ExternalMedia`.
- Notifications: `Summary`, `Notifier`, `NotifierRuns` (short runs).
- Redaction: `Luhn`, `Spans`, `Bytes` (UTF-8), `Redact` and `Crossings` (gateway), `Pii` and
  `Coverage` (agent runtime).
- Dialogue: `AgentModel`, `AgentSafety`, `AgentTools` (keys and what the tools hold),
  `AgentRuns` (short conversations), `AgentLocale`, `AgentRuntime`.

## Where the natural claim fails

These promises do not hold of the code as it stands. Each is kept as the code has it, with a
run or an input that shows the failure and the exact condition.

- "Ducked only while speaking": a reply that completes inside the confirmation window leaves
  the line ducked. Outside speaking the line is ducked exactly when the last stay in speaking
  ended so (`DuckedOutsideSpeakingIff`, `CompletionLeavesDuckedIff`; a run:
  `DuckedWhileListening`).
- "A user turn is delivered once": it is carried into the next one exactly when no agent turn
  was reported between, and repeated exactly when nothing was absorbed between
  (`NextTurnCarriesIffNoAgentTurn`). Two runs: the agent fails to start
  (`AgentFailureRepeats`), and one loud frame with every provider fine (`BareOnsetRepeats`).
- "playedMs is what the line played": over every run exactly when the reply just began, or the
  line has no lag and no more time has passed than it took audio for, or it took everything
  written and has no lag or has played it all (`PlayedMsAgainstLine`). Two runs: a filler still
  queued (`FillerAheadOfReply`), and a failed write on a line without lag
  (`FailedWriteClaimsWord`). The words recorded at a barge-in are then those the line had played
  exactly when all of them had ended there (`BargeInRecordsWhatTheLinePlayed`).
- "Fold drops duplicates": not for events numbered 0 (`CopiesAreIgnoredIffNumbered`; an input:
  `ZeroIsNotDeduplicated`).
- "Sequence numbers have no gaps": a payload the contract rejects uses its number up
  (`GaplessIffNoneRejectedBefore`; a run: `RejectedFirstLeavesGap`).
- "Half-open ends": a cancelled probe reports nothing, and the provider is then never tried
  again (`HalfOpenEndsIffInFlight`; a run: `LostProbeSticks`).
- "Every send at most once": except once more for each send that left no mark, because it
  reported an error or the store lost the mark (`AcceptedIffExplained`; a run:
  `LostMarkSendsTwice`).
- "The weekly reports add up to the calls": a report whose send or mark returns an error is sent
  again, in the same week or the next. They add up exactly when no such report had anything to say
  (`SentReportsCountUnmarkedTwice`, `SentReportsConserveIff`; a run:
  `UnmarkedReportCountsTwice`). Against the distinct call.ended events they never fall short, and
  are equal exactly when besides no event was counted twice (`ReportsTellEachCallOnceIff`).
- "A replay of a settled call.ended has no effect": exactly when what is buffered by then does not
  fold or all that its digest owes is settled (`ReplayIsSilentIff`; a run with late events:
  `LateEventsMakeReplaySend`). What is told is the whole history's exactly when what had arrived
  gives the same digest (`TellsHistoryIff`).
- "Header extensions are rejected": the extension and padding bits are not looked at, so four
  first bytes are accepted (`AcceptedFirstBytes`; for every packet: `ExtensionIsTakenForPayload`).
- "Detected PII is masked": a candidate that begins inside a kept one and ends after it is dropped,
  and its tail can stay. All candidates are masked whole, each by one mask, exactly when any two that cross lie
  together in a third (`MaskedWholeIffCrossingsBridged`; a text: `TailOfNumberStays`). The agent
  runtime's redactor masks every genuine match whole exactly when each that overlaps an earlier
  one lies in an earlier one (`MaskedWholeIffOverlapsHeld`; a text: `TailOfDateStays`).
- "Every booking has its own key": two bookings share one exactly when every booking turn from
  the first up to the second raised (`KeyRepeatsIffAllRaised`). The caller is told the slot
  the calendar holds exactly when the first effective request under the key was for it
  (`ToldSlotIsHeldIff`; a run: `RetryBooksFirstTellsSecond`).
- "The calendar is asked only for covered callers": of a proposal that raised nothing is kept,
  so it need not fit what the call learns later. Every calendar call fits the slots its own turn
  knew (`CalendarOnlyWhenBookable`; a run: `RaisedProposalForUncovered`).
- "Messages are kept": all are exactly when no delivering turn comes after another; the first one
  stays (`AllMessagesKeptIffNoneFollows`; a run: `SecondMessageIsLost`).
- "The caller can always move on": not from scheduling when the calendar offered nothing
  (`NoSlotsTrap`, `AgreeingLeavesIffOffered`; a run: `NothingOfferedTraps`), and with tools and
  model working a turn raises exactly after the goodbye (`RaisesIffOver`; a run:
  `AfterGoodbyeRaises`).
- A sequence number 32768 behind the newest is taken for a newer one (`StepExactIff`; a run:
  `LatePacketTakenForNewer`).

## Model

| member | source | states |
|---|---|---|
| Meter.SpeakingIffOnsetWithoutHangover | go/internal/media/energy.go:53-71 | After any history of frames the detector speaks exactly when some run of onset loud frames ended and no run of hangover quiet frames ended after it |
| Meter.CountersAreTails | go/internal/media/energy.go:14-22 | The two counters always equal the length of the current loud or quiet run, so a state is determined by the tail of the history |
| Meter.TailIsLongestRun | go/internal/media/energy.go:53-71 | The tail length bounds exactly the runs that end now |
| Meter.Meter.Process | go/internal/media/energy.go:53-71 | The in-place update of the three fields is the automaton step |
| Playout.HeardIsLongestPrefix | go/internal/turn/playout.go:52-74 | The words counted as heard are the longest prefix all of whose words have ended |
| Playout.UncutIffAllWordsEnded | go/internal/turn/playout.go:52-74 | No cut mark exactly when every word has ended, and then the full text is recorded |
| Playout.PlayedOutRecordsFullText | go/internal/turn/playout.go:26-74 | For any chunks whose words end inside them, playing out everything written records everything said |
| Playout.CutIsMarked | go/internal/turn/playout.go:66-73 | A cut text always ends in the cut mark |
| Playout.PlayoutTracker.AddChunk | go/internal/turn/playout.go:26-35 | Words are appended at absolute times and the written length grows |
| Playout.PlayoutTracker.Spoken | go/internal/turn/playout.go:52-74 | The scan yields the heard text and the cut flag of the specification |
| Playout.PlayoutTracker.FullText | go/internal/turn/playout.go:41-47 | The loop yields the whole text |
| Endpoint.TokenizeLoop | go/internal/turn/endpoint.go:89-101 | The loop yields the lower-cased white-space fields stripped of outer punctuation, empty ones dropped |
| Endpoint.TokensAreBare | go/internal/turn/endpoint.go:89-101 | No token is empty or begins or ends with strippable punctuation |
| Endpoint.TokensJoin | go/internal/turn/endpoint.go:89-101 | Tokenizing a text joined at a space concatenates the tokens of its parts |
| Endpoint.TailDecidesWait | go/internal/turn/endpoint.go:122-146 | When the draft ends in a hesitation, a number or an unfinished phrase the wait depends on that end alone, whatever came before |
| Endpoint.IsBackchannelLoop | go/internal/turn/endpoint.go:151-163 | True exactly for one to three tokens, all backchannel words |
| Endpoint.RealTextLenLoop | go/internal/turn/endpoint.go:167-175 | Counts the characters that are not white space |
| TurnProtocol.RunKeeps | go/internal/turn/machine.go:88-118 | Over every interleaving of inputs: listening and endpointing hold no cancel, channel or filler; thinking holds a live cancel, an open channel and an empty tracker; speaking holds a live cancel, no filler, and a channel exactly until synthesis closed |
| TurnProtocol.StepKeeps | go/internal/turn/machine.go:99-116 | Each enabled arm of the select keeps the invariant and never dereferences a missing tracker |
| TurnLog.RunAccepted | go/internal/turn/machine.go:88-118 | Every log of a run is one the protocol observer accepts |
| TurnLog.NothingAfterCancel | go/internal/turn/machine.go:456-464 | No audio of a cancelled reply is written later, and it is neither reopened nor cancelled again |
| TurnLog.OneReplyAtATime | go/internal/turn/machine.go:330-375 | Between two opened replies the first was cancelled |
| TurnLog.DuckingAlternates | go/internal/turn/machine.go:474-481 | Successive duck calls alternate on and off |
| TurnLog.OneAgentTurnPerEpisode | go/internal/turn/machine.go:249-277 | Each stay in speaking ends in listening and reports exactly one agent turn |
| TurnLog.OnlyEdges | go/internal/turn/machine.go:483-488 | State changes are linked, and only the six edges of the design occur |
| TurnLog.InterruptedTurnsAreMarked | go/internal/turn/machine.go:249-269 | Every interrupted agent turn in the log of a run ends in the cut mark |
| TurnWords.RunKeepsWords | go/internal/turn/machine.go:280-308 | Over every run: the book of absorbed words agrees with the carried text, the finals and the draft, so none is ever missing |
| TurnWords.WordsAreConserved | go/internal/turn/machine.go:209-224 | Every absorbed final is, in order, in the user turn delivered for its epoch or in the current draft |
| TurnRepeats.ResetsThrowNothingAway | go/internal/turn/machine.go:304-308 | In the log of every run, before each draft reset comes a user turn since which no other was delivered, no draft was reset and nothing was absorbed |
| TurnWords.CancelledTurnIsPrefixOfNext | go/internal/turn/machine.go:380-395 | The text of a turn cancelled by more speech or failed by a provider is a prefix of the next user turn |
| TurnCalm.NeverFiresEarly | go/internal/turn/machine.go:122-151 | No user turn of any run fires before waitForMs of its text has passed without a speaking frame or a non-blank recognizer result |
| TurnCalm.FiresExactlyAtWait | go/internal/turn/machine.go:138-151 | A quiet frame fires the draft exactly when endpointing and the quiet time reaches the wait, and otherwise keeps it |
| TurnCalm.FiresUnderQuietInput | go/internal/turn/machine.go:122-151 | From any state with a draft, quiet input fires that very draft within the frames left |
| TurnCalm.SilenceEndsTurn | go/internal/turn/machine.go:313-326 | From listening with a draft the turn fires within hangover + wait/20 rounded up + 1 quiet frames |
| TurnCalm.FailedTurnFiresAgain | go/internal/turn/machine.go:380-388 | One cause of a repeated turn, from any state: after a failed start the delivered text stays in the draft, and silence delivers it again |
| TurnLine.RunLine | go/internal/turn/machine.go:399-419 | Over every run the simulated line holds the frames written and played that the machine's counters claim |
| TurnLine.LinePlaysAfterLag | go/internal/turn/machine.go:186-192 | What a first-in first-out line plays of a reply, in closed form over its lag and what it took, whatever writes failed |
| TurnLine.PlayedMsAgainstLine | go/internal/turn/machine.go:186-192 | Over every run, whatever writes failed: playedMs never claims less than the line played, and is exact if and only if the reply just began, or the line has no lag and took audio for the time passed, or it took everything written and has no lag or has played it all |
| TurnLine.BargeInRecordsWhatTheLinePlayed | go/internal/turn/machine.go:249-269 | Over every run: the words ended on the line, less the offset, never outnumber the words a barge-in records, and are the same exactly when all recorded words had ended on the line |
| TurnLine.CompletionRecordsFullText | go/internal/turn/machine.go:442-448 | A natural completion is uncut exactly when all words end within what was written, and then records the full text |
| TurnLine.CompletedTurnsAreWhole | go/internal/turn/machine.go:442-451 | In every run whose chunks carry words that end inside them, a frame that ends a stay in speaking reports the agent's turn with everything said |
| TurnLine.WellTimedChunksStayTimed | go/internal/turn/machine.go:399-419 | If all chunks carry words that end inside them, every tracked word of the run ends within what was written |
| TurnDucking.DuckedOutsideSpeakingIff | go/internal/turn/machine.go:442-451 | Over every run: outside speaking the line is ducked exactly when the last stay in speaking was ended by a frame completing the reply inside the confirmation window |
| TurnDucking.CompletionLeavesDuckedIff | go/internal/turn/machine.go:442-451 | The exact condition under which a completing frame leaves the line ducked |
| TurnDucking.DuckedWhileListening | go/internal/turn/machine.go:442-451 | A run that ends listening and ducked |
| TurnRepeats.NextTurnCarriesIffNoAgentTurn | go/internal/turn/machine.go:280-308 | For a user turn and the next one of any run: the earlier text is carried into the next exactly when no agent turn was reported between them, and is then repeated word for word exactly when nothing was absorbed between |
| TurnRepeats.AgentFailureRepeats | go/internal/turn/machine.go:380-388 | A run that delivers one utterance twice because the agent failed to start |
| TurnRepeats.BareOnsetRepeats | go/internal/turn/machine.go:153-158 | A run that does so with every provider fine, because of one loud frame |
| TurnLag.FillerAheadOfReply | go/internal/turn/machine.go:186-192 | A run in which playedMs claims 20 ms of a reply of which the line has played nothing |
| TurnLag.FailedWriteClaimsWord | go/internal/turn/machine.go:408-419 | A run without lag whose write fails: 20 ms and a word are claimed of which the line has played nothing |
| TurnMachine.TurnMachine.Run | go/internal/turn/machine.go:88-118 | The loop over the object does to its fields what the value-level run does |
| TurnMachine.TurnMachine.Step | go/internal/turn/machine.go:99-116 | One select iteration |
| TurnMachine.TurnMachine.OnFrame | go/internal/turn/machine.go:122-171 | The frame handler over the fields equals the step of the value |
| TurnMachine.TurnMachine.OnStt | go/internal/turn/machine.go:196-229 | The recognizer handler over the fields equals the step of the value |
| TurnMachine.TurnMachine.OnSpeakingStt | go/internal/turn/machine.go:232-245 | The barge-in decision over the fields equals the step of the value |
| TurnMachine.TurnMachine.ConfirmBargeIn | go/internal/turn/machine.go:249-277 | Flush, unduck, record, cancel, absorb, in this order |
| TurnMachine.TurnMachine.FinalizeUserTurn | go/internal/turn/machine.go:313-326 | The end of a caller turn over the fields equals the step of the value |
| TurnMachine.TurnMachine.StartAgentTurn | go/internal/turn/machine.go:330-375 | Opening a reply, with both failure exits |
| TurnMachine.TurnMachine.FailTurn | go/internal/turn/machine.go:380-388 | The provider failure path |
| TurnMachine.TurnMachine.Rethink | go/internal/turn/machine.go:392-395 | Cancelling a reply for more caller speech |
| TurnMachine.TurnMachine.OnChunk | go/internal/turn/machine.go:399-419 | The synthesis handler over the fields equals the step of the value |
| TurnMachine.TurnMachine.OnFiller | go/internal/turn/machine.go:423-437 | The filler handler over the fields equals the step of the value |
| TurnMachine.TurnMachine.CompleteAgentTurn | go/internal/turn/machine.go:442-451 | The natural completion over the fields equals the step of the value |
| TurnMachine.TurnMachine.CancelTurn | go/internal/turn/machine.go:456-472 | Releases the handle, the channel and the filler |
| EventFold.FoldDependsOnlyOnSet | go/internal/event/fold.go:107-136 | For numbered events named by (Seq, EventID), any reordering and duplication gives the same snapshot or the same error |
| EventFold.FoldIsInOrderApplication | go/internal/event/fold.go:112-136 | The fold equals applying, in order, the event of smallest EventID for each Seq |
| EventFold.FoldIgnoresOrder | go/internal/event/fold.go:112-120 | Reordering never matters, whatever the numbers |
| EventFold.CopiesAreIgnoredIffNumbered | go/internal/event/fold.go:124-128 | A second copy is harmless in every stream exactly for events whose Seq is not 0 |
| EventFold.ZeroIsNotDeduplicated | go/internal/event/fold.go:126-128 | Two copies of an error numbered 0 are counted twice |
| EventFold.FoldIsCoherent | go/internal/event/fold.go:139-268 | Whatever the delivery: transcript Seqs strictly increase, the cursor and locale are the last of their histories, one latency per agent entry, and LastSeq is the highest Seq |
| EventFold.ApplyAllCoherent | go/internal/event/fold.go:139-268 | In-order application keeps that coherence |
| EventFold.VarsAreLastWritten | go/internal/event/fold.go:234-242 | A variable is present exactly when assigned, with the value of its last writer |
| EventFold.FailsAtFirstMalformed | go/internal/event/fold.go:129-131 | A fold fails exactly when an applied event does not decode, naming the first |
| EventFold.CallSnapshot.ApplyOne | go/internal/event/fold.go:139-268 | The switch updates the snapshot's fields as the value-level application does |
| EventFold.FoldEvents | go/internal/event/fold.go:112-136 | The loop over the sorted copy computes the fold, with its early exit |
| EventSourcing.GaplessIffNoneRejectedBefore | python/agent-runtime/src/agent_runtime/events.py:75-97 | The emitted numbers are 1, 2, 3, … without a gap exactly when no event was emitted after a rejected payload |
| EventSourcing.RejectedFirstLeavesGap | python/agent-runtime/src/agent_runtime/events.py:80-82 | A run of two emissions whose first event has number 2 |
| EventSourcing.RunNumbers | python/agent-runtime/src/agent_runtime/events.py:80-96 | Emitted numbers strictly increase from 1 in every run |
| EventSourcing.BusHoldsPrefix | python/agent-runtime/src/agent_runtime/bridge.py:141-147 | After any pattern of publish failures the bus holds exactly a prefix of the emitted events, at least the flushed ones |
| EventSourcing.AnyDeliveryFoldsToPrefix | python/agent-runtime/src/agent_runtime/bridge.py:141-147 | At any moment every duplicated, reordered delivery of the bus folds to the in-order application of a prefix of the history |
| EventSourcing.FlushedDeliveryFoldsToHistory | python/agent-runtime/src/agent_runtime/bridge.py:141-147 | Once a flush succeeds, every such delivery folds to all events emitted so far, whatever failed before |
| EventSourcing.EventEmitter.EmitOne | python/agent-runtime/src/agent_runtime/events.py:75-97 | Takes the number before validating; a partial is refused before that |
| EventSourcing.CallSession.FlushEvents | python/agent-runtime/src/agent_runtime/bridge.py:141-147 | The publish loop stops at the first failure and advances the mark only at its end |
| Billing.UsageFromEvents | go/internal/billing/billing.go:51-65 | Grouping and summing in whatever order the map gives computes the sum of the per-call folds, or fails when one fails |
| Billing.UsageDependsOnlyOnSet | go/internal/billing/billing.go:48-65 | Interleaving, reordering and duplicating events across all calls leaves the usage unchanged |
| Billing.UsageIsAdditive | go/internal/billing/billing.go:48-85 | Usage is additive over streams without a common call, however interleaved |
| Billing.TotalFrom | go/internal/billing/billing.go:56-63 | The total does not depend on the order in which calls are visited |
| Billing.RoundingBound | go/internal/event/fold.go:279-284 | 0 ≤ 60000·minutes − Σ duration < 60000·ended calls for non-negative durations and at least one ended call |
| Billing.MinutesOfHistory | go/internal/event/fold.go:157-165 | Billed minutes are the rounded duration of the last call.ended applied |
| Billing.BillFollowsHistories | go/internal/billing/billing.go:48-65 | From emitters to usage: for any set of flushed calls, any delivery of their events bills each call's own history |
| Billing.InvoiceIsMonotone | go/internal/billing/billing.go:104-126 | More minutes never cost less and each extra minute at most 35 cents; the base is always charged |
| Billing.MoreCallsNeverCostLess | go/internal/billing/billing.go:51-126 | Adding calls to a stream never lowers its invoice |
| Jitter.ReleasesInOrderWithoutLoss | go/internal/media/jitter.go:27-55 | Over any arrival order: releases strictly increase, what waits is ahead of next and fits the window, and a frame on time at arrival is released or waiting, never discarded |
| Jitter.ContiguousIffWithinWindow | go/internal/media/jitter.go:27-55 | The output has no gap exactly when never more than window frames wait above the smallest missing one; then everything below it has been released |
| Jitter.WholeStreamComesOutSorted | go/internal/media/jitter.go:27-55 | A complete stream that starts with its smallest number and fits comes out whole and sorted |
| Jitter.DrainConserves | go/internal/media/jitter.go:37-54 | One drain releases in order and loses nothing of what was pending |
| Jitter.JitterBuffer.PushFrame | go/internal/media/jitter.go:27-55 | The release loop over next and pending terminates and computes the specification |
| Jitter.JitterBuffer.OldestPending | go/internal/media/jitter.go:57-67 | The scan over the map finds its smallest key, in any iteration order |
| SttRing.EveryFrameIsAccounted | go/internal/degrade/sttring.go:85-151 | Over every run and every behaviour of dial, send and sleep: the buffer is a suffix of at most capacity frames, and each earlier frame is either acknowledged, in input order and once, or evicted after capacity newer frames |
| SttRing.SendAccounts | go/internal/degrade/sttring.go:85-106 | A send succeeds exactly when it leaves a live connection and an empty buffer; otherwise no connection, and the frame waits last |
| SttRing.EvictsOnlyInLongOutage | go/internal/degrade/sttring.go:124-132 | An eviction takes at least capacity failed sends in a row before it |
| SttRing.SendCost | go/internal/degrade/sttring.go:153-173 | One send dials at most 6 times and sleeps at most 560 ms a provider |
| SttRing.SendCostIsReached | go/internal/degrade/sttring.go:85-106 | Some world reaches both bounds, for every number of providers |
| SttRing.STTRing.SendOne | go/internal/degrade/sttring.go:85-106 | Push, dial, flush, drop, redial and replay over the fields equal the specification |
| SttRing.STTRing.PushOne | go/internal/degrade/sttring.go:127-132 | Appends, dropping the oldest frame when full |
| SttRing.STTRing.FlushAll | go/internal/degrade/sttring.go:136-144 | Replays in order until a send fails |
| SttRing.STTRing.DialAll | go/internal/degrade/sttring.go:154-173 | Walks the providers with the 0/80/200 ms schedule |
| Breaker.AtMostOneProbePerInterval | go/internal/degrade/breaker.go:83-132 | Whatever all calls do: from an opening until the next success at most T/probeEvery attempts are admitted within T |
| Breaker.ProbesAreSpaced | go/internal/degrade/breaker.go:83-132 | Without a success a breaker never closes again, and each admitted attempt uses up a probe interval of its own |
| Breaker.OpensAtMaxFailures | go/internal/degrade/breaker.go:115-132 | It opens at the configured number of failures in a row, and not before |
| Breaker.HalfOpenWaitsForReport | go/internal/degrade/breaker.go:83-101 | While nobody reports, half-open admits nobody |
| Breaker.ProviderBreaker.AllowAttempt | go/internal/degrade/breaker.go:83-101 | The object's step and verdict |
| Breaker.ProviderBreaker.ReportSuccess | go/internal/degrade/breaker.go:104-110 | The object's step |
| Breaker.ProviderBreaker.ReportFailure | go/internal/degrade/breaker.go:115-132 | The object's step |
| Breaker.Registry.For | go/internal/degrade/breaker.go:155-167 | A known name gives the object it always gave, a new name a new closed breaker |
| Hedge.RacesAreFair | go/internal/degrade/hedge.go:95-162 | Over every interleaving of any number of calls: the secondary is launched at most once, no attempt blocks on delivering, and all-failed is reported only after both attempts failed |
| Hedge.SecondaryStartsIff | go/internal/degrade/hedge.go:131-156 | Over every interleaving a call has a second attempt exactly when the timer fired or a failure was received while the race was on, and all-failed is never reported before that attempt ended |
| Hedge.BreakerFollowsItsHistory | go/internal/degrade/hedge.go:103-124 | The shared breaker of a provider is in the state its own history gives, whichever calls that came from |
| Hedge.HalfOpenEndsIffInFlight | go/internal/degrade/hedge.go:114-121 | A half-open breaker can leave that state in some continuation exactly when an attempt at its provider is in flight |
| Hedge.StuckForever | go/internal/degrade/hedge.go:114-121 | Otherwise it stays half-open in every continuation |
| Hedge.LostProbeSticks | go/internal/degrade/hedge.go:114-121 | A run that ends there: the winning secondary cancels the probe |
| Hedge.Complete | go/internal/degrade/hedge.go:95-162 | The select loop over any arms picked computes the outcome and the counters |
| RetryStorm.ProbesAreAdmitted | go/internal/degrade/hedge.go:103-113 | Over every interleaving the attempts that went ahead at a provider are those its breaker's history admits |
| RetryStorm.AllCallsProbeOncePerInterval | go/internal/degrade/breaker.go:83-132 | Under a clock that does not go back, from a moment at which a provider's breaker is open until its next success at most T/probeEvery attempts of all calls together reach it within T of the opening |
| Rtp.ParseInvertsBuild | go/internal/asterisk/rtp.go:32-60 | Parsing a built datagram gives back its fields and payload (RFC 3550, section 5.1) |
| Rtp.BuildInvertsParseIff | go/internal/asterisk/rtp.go:32-60 | Rebuilding a parsed datagram is the identity exactly for a plain first byte and payload type 118 |
| Rtp.AcceptedFirstBytes | go/internal/asterisk/rtp.go:30-41 | Accepted exactly when long enough with one of four first bytes, extension and padding bits ignored |
| Rtp.ExtensionIsTakenForPayload | go/internal/asterisk/rtp.go:30-41 | Setting the extension bit of any accepted datagram changes nothing |
| Rtp.DecodeInvertsEncode | go/internal/asterisk/rtp.go:63-78 | Samples survive encoding and decoding |
| Rtp.EncodeInvertsDecodeIff | go/internal/asterisk/rtp.go:63-78 | A payload survives decoding and encoding exactly when its length is even |
| Rtp.RateRoundTrip | go/internal/asterisk/rtp.go:83-103 | Up- and downsampling moves a sample at most a quarter (rounded) of the way to the next and never beyond it |
| Rtp.EncodePayload | go/internal/asterisk/rtp.go:72-78 | The loop fills a fresh buffer with the encoding |
| Rtp.DecodePayload | go/internal/asterisk/rtp.go:63-69 | The loop fills a fresh buffer with the samples |
| Rtp.BuildDatagram | go/internal/asterisk/rtp.go:51-60 | The buffer filled field by field is the datagram |
| ExternalMedia.UnwrapsExactly | go/internal/asterisk/externalmedia.go:258-274 | While no packet strays half the number space from the newest, a packet is accepted exactly when newer, and the frame number is its true distance from the first, across any number of wraps (RFC 3550, appendix A.1) |
| ExternalMedia.StepExactIff | go/internal/asterisk/externalmedia.go:264-271 | Exactly which distances one step judges rightly |
| ExternalMedia.LatePacketTakenForNewer | go/internal/asterisk/externalmedia.go:264-271 | A run of two packets in which one half the number space late is accepted as newer |
| ExternalMedia.EnqueuesWhatFits | go/internal/asterisk/externalmedia.go:211-222 | A write queues the payloads that fit below 250 and reports overflow exactly when some did not |
| ExternalMedia.OutboundIsFifo | go/internal/asterisk/externalmedia.go:290-320 | Over any run: the queue is the end of what was written, sent payloads went out once, in order, numbered consecutively modulo 2^16 and 20 ms apart modulo 2^32 |
| ExternalMedia.FlushCuts | go/internal/asterisk/externalmedia.go:225-232 | Nothing queued before a flush goes out after it |
| ExternalMedia.PeerHearsWhatWasSent | go/internal/asterisk/externalmedia.go:258-308 | What one session sends, another hears: frame n has number n and the samples of the n-th payload, through build, parse, unwrapping and decoding |
| ExternalMedia.MediaSession.DeliverPacket | go/internal/asterisk/externalmedia.go:258-286 | The inbound fields and the bounded channel; a closed session or stalled consumer loses the frame, not the numbering |
| ExternalMedia.MediaSession.WritePcm | go/internal/asterisk/externalmedia.go:200-223 | Splits, pads and queues until full |
| ExternalMedia.MediaSession.FlushQueue | go/internal/asterisk/externalmedia.go:227-232 | Empties the queue and nothing else |
| ExternalMedia.MediaSession.CloseSession | go/internal/asterisk/externalmedia.go:243-254 | Closes and empties, leaving the numbering |
| ExternalMedia.MediaSession.NextPayload | go/internal/asterisk/externalmedia.go:311-320 | Pops the oldest payload |
| ExternalMedia.MediaSession.SendNext | go/internal/asterisk/externalmedia.go:299-305 | One tick of the sender over the object |
| Summary.SummaryDependsOnlyOnSet | go/internal/notify/summary.go:64-118 | Redelivery and reordering leave the digest unchanged when the stream holds one call.started |
| Summary.FirstCallerIsFirstArrival | go/internal/notify/summary.go:77-87 | The caller's number is that of the first call.started to arrive, decodable or not |
| Summary.BookedMeansLastWrite | go/internal/notify/summary.go:99-116 | Booked exactly when not transferred and the last value written to the appointment variable names a moment |
| Summary.FindCaller | go/internal/notify/summary.go:77-87 | The scan with its early exit |
| Notifier.AcceptedIffExplained | go/internal/notify/notifier.go:158-288 | Under any run of redeliveries, replays and failures the messages and counts under one key number those that left no mark, plus one if it is marked; so at most one unless a send reported an error after being taken or a mark was lost, for owner, client and weekly report alike |
| NotifierRuns.LostMarkSendsTwice | go/internal/notify/notifier.go:174-216 | A run in which the owner gets one message twice |
| Notifier.SentReportsCountUnmarkedTwice | go/internal/notify/weekly.go:55-86 | Over every run, per tenant: what the accepted reports say plus the current counter is the calls counted plus, once more, what was said in each report whose send or mark returned an error |
| Notifier.SentReportsConserveIff | go/internal/notify/weekly.go:75-86 | So reports and counter are the calls counted exactly when no accepted report with something to say had its send or mark fail |
| NotifierRuns.UnmarkedReportCountsTwice | go/internal/notify/weekly.go:75-86 | A run that reports one call in two weeks |
| Notifier.ReportsTellEachCallOnceIff | go/internal/notify/weekly.go:55-86 | Over every run, per tenant: what the accepted reports say plus the current counter is at least the distinct call.ended events counted, and equal exactly when no event was counted twice and no report of some call had its send or mark fail |
| Notifier.CountsAtLeastEvents | go/internal/notify/notifier.go:262-288 | A tenant's calls counted are at least the distinct events counted, and equal exactly when none was counted twice |
| Notifier.CountedOnceUnlessLost | go/internal/notify/notifier.go:262-288 | Over every run an event is counted twice for a tenant only if a mark of its count was lost |
| Notifier.EachEventCountsOnce | go/internal/notify/notifier.go:262-288 | Over all tenants, while no count mark was lost, the calls counted are the distinct call.ended events counted |
| Notifier.NilMeansSettled | go/internal/notify/notifier.go:125-170 | A nil return means every send then due was accepted and the buffer released; an error keeps the buffer |
| Notifier.CalmRedeliverySucceeds | go/internal/notify/notifier.go:121-154 | Once the outside is calm, a redelivery succeeds whenever the events fold |
| Notifier.ReplayIsSilentIff | go/internal/notify/notifier.go:125-170 | For a tenant's settings, a call.ended leaves the outside alone in every world exactly when the events buffered by then do not fold or all that their digest owes is settled |
| NotifierRuns.LateEventsMakeReplaySend | go/internal/notify/notifier.go:125-170 | A run in which a settled call.ended, redelivered after events that arrived late, sends the caller a message |
| Notifier.TellsHistoryIff | go/internal/notify/notifier.go:125-163 | Two notifiers that differ only in what has arrived have the same effects on a call.ended whose owner is to be told exactly when both digests agree |
| Notifier.WholeHistoryIsTold | go/internal/notify/notifier.go:125-163 | They agree when the same events have arrived, in any order and with any repetition, with a single call.started |
| Notifier.CallNotifier.HandleEvent | go/internal/notify/notifier.go:125-170 | Buffering, the three effects in order and the release over the fields |
| Notifier.CallNotifier.SendOwnerSms | go/internal/notify/notifier.go:174-216 | Seen, render, send, mark, with every error exit |
| Notifier.CallNotifier.SendClientSms | go/internal/notify/notifier.go:220-258 | The same for the caller, when one is due |
| Notifier.CallNotifier.RecordWeekly | go/internal/notify/notifier.go:262-288 | Counts and marks |
| Notifier.CallNotifier.SendWeeklyReport | go/internal/notify/weekly.go:47-88 | Reads, sends, marks and resets one tenant's counters |
| Notifier.CallNotifier.SendWeeklyReports | go/internal/notify/weekly.go:18-31 | The sweep goes on after a failing tenant |
| Luhn.LuhnValid | go/internal/event/redact.go:214-232 | The right-to-left loop computes the positional checksum (ISO/IEC 7812-1, annex B) |
| Luhn.CatchesSingleError | go/internal/event/redact.go:214-232 | Any single wrong digit is caught |
| Luhn.CatchesSwapIff | go/internal/event/redact.go:214-232 | Swapped neighbours are caught exactly unless they are 0 and 9 |
| Luhn.CheckDigitExists | go/internal/event/redact.go:214-232 | Every number has exactly one valid check digit |
| Redact.Tokenize | go/internal/event/redact.go:118-137 | The scan yields exactly the longest stretches of letters and digits, in order |
| Redact.RunsAreMaximal | go/internal/event/redact.go:179-209 | The grouping finds exactly the maximal separator-joined runs of digit tokens |
| Redact.DigitCandidatesAreMaximalRuns | go/internal/event/redact.go:172-211 | Digit candidates are exactly the maximal runs of 9 or 13 to 19 digits that pass the checksum |
| Redact.DetectDigitRuns | go/internal/event/redact.go:175-211 | The two nested loops compute them |
| Redact.DobsHaveContext | go/internal/event/redact.go:270-283 | Date candidates are exactly the dates with a birth keyword in the 48 bytes before them |
| Redact.WindowIsSlice | go/internal/event/redact.go:274-279 | Those bytes are the byte slice of the whole text before the date |
| Redact.KeptCoverStarts | go/internal/event/redact.go:86-96 | What is kept is in bounds, sorted and disjoint, and each candidate starts inside a kept span |
| Crossings.MaskedWholeIffCrossingsBridged | go/internal/event/redact.go:74-97 | For any candidates: each is masked whole, by one mask, exactly when for any two that cross some candidate holds both |
| Crossings.TailOfNumberStays | go/internal/event/redact.go:74-97 | A text whose detected thirteen-digit number keeps eleven digits after redaction, from tokens to the rendered result |
| Crossings.TiesDoNotMatter | go/internal/event/redact.go:80-85 | Whatever order the sort gives to spans with equal bounds, the same stretches are masked |
| Redact.DropOverlaps | go/internal/event/redact.go:86-96 | The in-place compaction of the slice keeps exactly those spans |
| Redact.Detect | go/internal/event/redact.go:74-97 | The whole detector, on every text |
| Redact.RedactText | go/internal/event/redact.go:47-70 | The builder loop renders the masked text, stores each original, and stops at the first refusal of the vault |
| Spans.RestoreInvertsRender | go/internal/event/redact.go:53-69 | Redacted text, spans and stored originals give the text back |
| Spans.RenderHidesSpans | go/internal/event/redact.go:53-69 | Texts that differ only inside the spans are redacted alike |
| Redact.RedactionIsReversibleAndBlind | go/internal/event/redact.go:44-70 | Both together for the redactor's spans |
| Redact.Redact | go/internal/event/redact.go:44-70 | Detecting, masking and storing in one: unless the vault refuses an original, the result gives the text back |
| Crossings.FromTextAndBack | go/internal/event/redact.go:44-97 | For every text: the stored originals restore it, the start of every candidate is masked, every character of every candidate is when crossings are bridged, and texts that differ only where it is masked are redacted alike |
| Pii.LuhnOk | python/agent-runtime/src/agent_runtime/pii.py:32-42 | The loop over the reversed characters computes the checksum by position, on any characters |
| Pii.TotalIsLuhnSum | python/agent-runtime/src/agent_runtime/pii.py:32-42 | On ASCII digits both services agree on the checksum |
| Pii.GatheredSpansAreApart | python/agent-runtime/src/agent_runtime/pii.py:52-75 | No two spans overlap, all lie in the text, and every genuine match of every detector is kept or overlaps a kept span |
| Pii.FoundSpansAreNeat | python/agent-runtime/src/agent_runtime/pii.py:74-75 | After sorting the spans are in order and disjoint |
| Coverage.MaskedWholeIffOverlapsHeld | python/agent-runtime/src/agent_runtime/pii.py:45-75 | For any text and matches: every genuine match is masked whole, by one mask, exactly when each that overlaps an earlier one, in the order of the detectors, lies in an earlier one |
| Coverage.TailOfDateStays | python/agent-runtime/src/agent_runtime/pii.py:45-75 | A text whose found date keeps its month and year after redaction |
| Bytes.ByteOffsetsCutTheSpan | python/agent-runtime/src/agent_runtime/pii.py:96-97 | The UTF-8 offsets of a span cut exactly the bytes of its characters out of the text (RFC 3629, section 3) |
| Pii.RedactionsNameTheBytes | python/agent-runtime/src/agent_runtime/pii.py:93-105 | Over bytes the redactions are non-empty, ordered and disjoint, and each names the bytes of what it masks |
| Pii.MaskSpans | python/agent-runtime/src/agent_runtime/pii.py:90-105 | The loop renders the masked text and the byte spans |
| Pii.Redact | python/agent-runtime/src/agent_runtime/pii.py:78-105 | The whole redactor |
| AgentLocale.LocaleDecidesOnlyWording | python/agent-runtime/src/agent_runtime/graph.py:292-342 | Two calls with the same caller texts, calendar answers and failures but any languages and model words visit the same nodes, collect the same slots and intent, route to the same tier and emit the same tool calls, variables, transfers and node changes |
| AgentLocale.TurnAlike | python/agent-runtime/src/agent_runtime/graph.py:252-262 | One turn keeps that likeness and raises in both calls or in neither |
| AgentSafety.SlotsNeverChange | python/agent-runtime/src/agent_runtime/graph.py:605-633 | Service, postal code, coverage and urgency never change once set, over any continuation |
| AgentSafety.RunSafe | python/agent-runtime/src/agent_runtime/graph.py:358-436 | Over every conversation, whatever raises: coverage is known exactly with the postal code and has its value, scheduling is for qualified, covered callers only, ended means done |
| AgentSafety.CalendarOnlyWhenBookable | python/agent-runtime/src/agent_runtime/graph.py:400-478 | Every calendar call of every turn, raising or not, is for a caller whose three slots that turn knew and whose address is covered, with exactly that service and urgency; what a booking or a completed turn relied on holds in every later turn |
| AgentSafety.RaisedTurnsLeaveNoTrace | python/agent-runtime/src/agent_runtime/graph.py:252-262 | The state after any run is that of the run without the turns that raised |
| AgentSafety.RaisesIffOver | python/agent-runtime/src/agent_runtime/graph.py:252-297 | While tools and model work a turn raises exactly after the conversation is over, unless it is an emergency; a turn that raises for any reason leaves the state alone |
| AgentRuns.AfterGoodbyeRaises | python/agent-runtime/src/agent_runtime/graph.py:252-297 | A run that ends with the goodbye, after which any turn raises |
| AgentSafety.EmergencyTransfers | python/agent-runtime/src/agent_runtime/graph.py:344-356 | From any node an emergency is announced for transfer at once, without a tool call, and ends the conversation unless the model raises |
| AgentSafety.NoSlotsTrap | python/agent-runtime/src/agent_runtime/graph.py:438-446 | With nothing proposed, no continuation without an emergency leaves scheduling |
| AgentSafety.AgreeingLeavesIffOffered | python/agent-runtime/src/agent_runtime/graph.py:672-682 | An agreeing turn that completes leaves scheduling exactly when something was proposed |
| AgentRuns.NothingOfferedTraps | python/agent-runtime/src/agent_runtime/graph.py:438-446 | A run of one turn after which every continuation without an emergency stays in scheduling |
| AgentRuns.RaisedProposalForUncovered | python/agent-runtime/src/agent_runtime/graph.py:652-660 | A run that asks the calendar and ends with an address outside the coverage |
| AgentTools.TurnInvokes | python/agent-runtime/src/agent_runtime/graph.py:448-508 | A turn announces exactly the tool call it makes, whether or not it raises |
| AgentTools.RunInvokes | python/agent-runtime/src/agent_runtime/graph.py:448-508 | Over every run the calls announced are those the turns make, in order |
| AgentTools.AttemptsCountCompleted | python/agent-runtime/src/agent_runtime/graph.py:448-478 | Between any two moments of a run the attempts grow by the bookings completed |
| AgentTools.KeyRepeatsIffAllRaised | python/agent-runtime/src/agent_runtime/graph.py:448-460 | Two booking turns use the same key exactly when every booking turn from the first up to the second raised, in its tool or in the model |
| AgentTools.FirstUseIsHeld | python/agent-runtime/src/agent_runtime/tools.py:111-131 | Over every run the tools hold under a key what the first effective call under it asked for |
| AgentTools.ToldSlotIsHeldIff | python/agent-runtime/src/agent_runtime/graph.py:448-478 | The slot told for a completed booking is the one the calendar holds exactly when the first effective request under its key was for the same slot |
| AgentRuns.RetryBooksFirstTellsSecond | python/agent-runtime/src/agent_runtime/graph.py:448-478 | A run, for either way of raising, in which the calendar holds one slot and the caller is told another |
| AgentTools.DecimalInjective | python/agent-runtime/src/agent_runtime/graph.py:449-449 | Decimal numerals tell attempts apart |
| AgentTools.TurnMessages | python/agent-runtime/src/agent_runtime/graph.py:480-508 | A turn takes a message, that of its own text, exactly when it finds the call waiting for one and is no emergency |
| AgentTools.MessageKeptIffFirst | python/agent-runtime/src/agent_runtime/tools.py:128-131 | A delivered message is added to the store exactly when no turn before it delivered one |
| AgentTools.AllMessagesKeptIffNoneFollows | python/agent-runtime/src/agent_runtime/graph.py:485-501 | Over every run all delivered messages are kept exactly when no delivering turn comes after another, and the store ends with the first one's text |
| AgentRuns.MessageLoop | python/agent-runtime/src/agent_runtime/graph.py:510-520 | From any call that waits for a message three ordinary turns lead back to waiting for one |
| AgentRuns.SecondMessageIsLost | python/agent-runtime/src/agent_runtime/graph.py:485-501 | A run of five turns that delivers two messages, of which the store does not keep the second |
| AgentRuntime.ExtractSlots | python/agent-runtime/src/agent_runtime/graph.py:605-633 | Fills the empty slots of the bag in place and returns what was new |
| AgentRuntime.Runtime.ScreenTurn | python/agent-runtime/src/agent_runtime/graph.py:301-342 | Language, transcript and guardrail flags |
| AgentRuntime.Runtime.DialogueTurn | python/agent-runtime/src/agent_runtime/graph.py:358-436 | Slots, intent and the next question, with the events in order; no state when the calendar raises |
| AgentRuntime.Runtime.ScheduleTurn | python/agent-runtime/src/agent_runtime/graph.py:438-478 | The choice and the booking; no state when the calendar raises |
| AgentRuntime.Runtime.MessageTurn | python/agent-runtime/src/agent_runtime/graph.py:480-508 | The message; no state when the store raises |
| AgentRuntime.Runtime.RespondTurn | python/agent-runtime/src/agent_runtime/graph.py:522-578 | Records the tier, then streams; outbound guard, node events, turn event, history; no state when the stream raises |
| AgentRuntime.Runtime.HandleCallerTurn | python/agent-runtime/src/agent_runtime/graph.py:252-262 | The state is replaced only when no edge is missing and neither tool nor model raises; the emitter keeps what was emitted |

## Left out

- Real goroutines, mutexes, timers and channels: steps are atomic and readings of the clock are inputs; a race inside one handler is not modelled.
- Machine integers: int64 and uint64 overflow (the media clock, frame numbers, `next` of the jitter buffer, cents) is not modelled; 16- and 32-bit sequence numbers and time stamps wrap as in the code.
- Floating point: the dBFS comparison is a boolean per frame, and transcribed audio is counted in whole milliseconds instead of seconds.
- Audio samples: playback and synthesis carry durations; only the RTP codecs and resamplers handle samples.
- Regular expressions, word lists, Unicode tables, time zones, ISO weeks, RFC 3339 parsing, templates and model wording: parameters.
- Byte offsets of the gateway's redactor: positions of its spans count characters (its birth-keyword window counts bytes); the agent runtime's redactor is modelled with its UTF-8 offsets.
- Two emitters on one call: the gateway and the agent both number a call's events from 1 (go/cmd/telephony-gw/gateway.go:109, python/agent-runtime/src/agent_runtime/events.py:67); the end-to-end lemmas take one emitter per call.
- The JetStream subscriber, which marks a number as seen before its handler succeeds (go/internal/event/natsbus.go:65-71): the bus is the one documented in go/internal/event/bus.go:14-20.
- Concurrent handlers of one notifier: the weekly read and reset are two critical sections (go/internal/notify/weekly.go:55-86); handlers run one after another here.
- Key strings of the notifier: keys are a datatype, on the ground that EventIDs hold no colon.
- SttRing.Run: takes a capacity of at least 1; the code slices an empty buffer, and panics, below that.
- EventSourcing.EventEmitter.EmitOne: the payload arrives redacted; the redaction itself is module Pii, and ULID text is an ordered number.
- AgentModel.HandleTurn: its emitter does not raise; a payload the contract rejects is module EventSourcing.
- Notifier.CalmRedeliverySucceeds: needs the fold to succeed; an event that never decodes fails its call for ever, as in the code.
- Billing.MoreCallsNeverCostLess: for token counts and audio the invoice has no price, so only minutes matter.
- go/internal/obs: its false-positive counter runs after the machine has unducked and does not match its comment (go/internal/obs/metrics.go:150-152).
- HTTP handlers, Postgres, NATS, Telnyx, SES and ARI adapters, telemetry, web and mobile clients: input and output, or thin wrappers.
- The degradation ladder, the canned-audio bank, rehydration, the drainer and onboarding: a counter clamped to five levels, look-ups, a wait and forms; none holds a property of order or failure beyond one body.
