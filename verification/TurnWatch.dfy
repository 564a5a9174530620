/** What the turn machine is observed to do, and four independent observers of it: the
    turn-taking protocol, the book of the caller's words, the quiet time, and the line. */
module TurnWatch {
  import opened Common
  import opened Text

  datatype Phase = Listening | Endpointing | Thinking | Speaking

  datatype Act =
    | Tick(speaking: bool)                     // one inbound frame, and the meter's verdict
    | Heard                                    // a recognizer result with text arrived
    | StateChange(src: Phase, dst: Phase)
    | UserTurn(text: string, locale: string)
    | AgentTurn(text: string, interrupted: bool)
    | FillerPlayed
    | LanguageSwitch(before: string, after: string)
    | DuckSet(on: bool)                        // playback volume and its hook
    | BargeIn(text: string)
    | Failed(stage: string)
    | ReplyOpened(id: nat)
    | ReplyCancelled(id: nat)
    | ChunkWritten(id: nat, ms: nat, ok: bool)
    | ClipWritten(ms: nat, ok: bool)
    | Flushed(ok: bool)
    | Absorbed(text: string, isFinal: bool)    // text taken into the caller's draft
    | DraftReset

  // --- the turn-taking protocol

  /** `live` is the reply pipeline not yet cancelled; `turned` says that the current thinking
      or speaking phase has reported its agent turn. */
  datatype Proto = Proto(ok: bool, phase: Phase, live: Option<nat>, replies: nat, ducked: bool, turned: bool)

  predicate Edge(src: Phase, dst: Phase) {
    match (src, dst)
    case (Listening, Endpointing) => true
    case (Endpointing, Listening) => true
    case (Endpointing, Thinking) => true
    case (Thinking, Listening) => true
    case (Thinking, Speaking) => true
    case (Speaking, Listening) => true
    case _ => false
  }

  /** The text of an interrupted turn ends in the cut mark. */
  predicate IsMarked(text: string) { text != "" && text[|text| - 1] == '—' }

  /** Whether the protocol allows act `a` in state `p`. */
  predicate Allowed(p: Proto, a: Act) {
    match a
    case StateChange(src, dst) =>
      && src == p.phase && Edge(src, dst)
      && (p.live.Some? <==> dst == Thinking || dst == Speaking)
      && (src == Speaking ==> p.turned)
    case UserTurn(text, _) => p.phase == Endpointing && p.live.None? && text != ""
    case AgentTurn(text, interrupted) =>
      && (p.phase == Thinking || p.phase == Speaking) && p.live.None? && !p.turned
      && (p.phase == Thinking ==> text == "" && !interrupted)
      && (interrupted ==> IsMarked(text))
    case FillerPlayed => p.phase == Thinking && p.live.Some?
    case DuckSet(on) => on != p.ducked && p.phase == Speaking
    case BargeIn(_) => p.phase == Speaking && p.turned
    case ReplyOpened(id) => p.phase == Endpointing && p.live.None? && id == p.replies
    case ReplyCancelled(id) => p.live == Some(id)
    case ChunkWritten(id, _, _) => p.phase == Speaking && p.live == Some(id)
    case ClipWritten(_, _) => if p.live.Some? then p.phase == Thinking else p.phase == Endpointing
    case Flushed(_) => p.phase == Speaking && p.live.None?
    case DraftReset => p.turned
    case _ => true
  }

  function ProtoStep(p: Proto, a: Act): Proto {
    var q := p.(ok := p.ok && Allowed(p, a));
    match a
    case StateChange(_, dst) => q.(phase := dst, turned := false)
    case AgentTurn(_, _) => q.(turned := true)
    case DuckSet(on) => q.(ducked := on)
    case ReplyOpened(id) => q.(live := Some(id), replies := p.replies + 1)
    case ReplyCancelled(_) => q.(live := None)
    case _ => q
  }

  // --- the book of the caller's words

  /** The caller's turn so far: text carried over from a delivered turn, finals, the latest
      partial. */
  datatype Words = Words(carryText: string, finals: seq<string>, lastPart: string)

  const NOTHING_SAID := Words("", [], "")

  function Parts(w: Words): seq<string> {
    (if w.carryText != "" then [w.carryText] else []) + w.finals
    + (if w.lastPart != "" then [w.lastPart] else [])
  }

  function Draft(w: Words): string { TrimSpace(Join(Parts(w))) }

  function Taken(w: Words, text: string, isFinal: bool): Words {
    if isFinal then Words(w.carryText, w.finals + [text], "") else w.(lastPart := text)
  }

  /** The finals absorbed between two draft resets, and the user turn delivered last. */
  datatype Epoch = Epoch(finals: seq<string>, delivered: string)

  /** `delivered` is the last user turn since the last reset, `held` the words as the log tells
      them, `owed` an agent turn whose draft was not reset yet. */
  datatype Book = Book(ok: bool, closed: seq<Epoch>, current: seq<string>, delivered: Option<string>,
                       held: Words, owed: bool)

  /** A user turn delivers the held words and begins with the turn before it; absorbed text is
      never blank; drafts are reset for agent turns, and for each of them, when they are the text
      last delivered. */
  predicate BookAllows(b: Book, a: Act) {
    match a
    case Absorbed(text, _) => Solid(text)
    case UserTurn(text, _) =>
      text == Draft(b.held) && text != "" && !b.owed && (b.delivered.Some? ==> b.delivered.value <= text)
    case AgentTurn(_, _) => !b.owed
    case DraftReset => b.owed && b.delivered.Some? && Draft(b.held) == b.delivered.value
    case _ => true
  }

  function BookStep(b: Book, a: Act): Book {
    var c := b.(ok := b.ok && BookAllows(b, a));
    match a
    case Absorbed(text, isFinal) =>
      c.(current := if isFinal then b.current + [text] else b.current, held := Taken(b.held, text, isFinal))
    case UserTurn(text, _) => c.(delivered := Some(text), held := Words(text, [], ""))
    case AgentTurn(_, _) => c.(owed := true)
    case DraftReset =>
      Book(c.ok, b.closed + [Epoch(b.current, if b.delivered.Some? then b.delivered.value else "")], [], None,
           NOTHING_SAID, false)
    case _ => c
  }

  // --- the quiet time

  /** A user turn as it fired, with the quiet time before it. */
  datatype Fired = Fired(text: string, locale: string, quietMs: nat)

  /** Media time since the last speaking frame or recognizer text. */
  datatype Calm = Calm(quietMs: nat, fired: seq<Fired>)

  function CalmStep(q: Calm, a: Act): Calm {
    match a
    case Tick(speaking) => q.(quietMs := if speaking then 0 else q.quietMs + 20)
    case Heard => q.(quietMs := 0)
    case UserTurn(text, locale) => q.(fired := q.fired + [Fired(text, locale, q.quietMs)])
    case _ => q
  }

  // --- the line

  /** The outbound line as a queue of milliseconds, each tagged with the reply it belongs to
      (`None` for clips). It plays one frame per tick; `played` counts what was played of the
      reply `of` since it began to speak. The other fields describe the same episode: `ahead`
      is the audio queued when it began, `idle` the silent time of the line since, `lag` the
      value of `ahead + idle` at the last write that queued audio, `lost` whether a write
      failed. */
  datatype Line = Line(queue: seq<Option<nat>>, of: Option<nat>, played: nat,
                       ahead: nat, idle: nat, lag: nat, lost: bool)

  function Copies(tag: Option<nat>, n: nat): (r: seq<Option<nat>>)
    ensures |r| == n && forall i :: 0 <= i < n ==> r[i] == tag
  {
    seq(n, i => tag)
  }

  function Count(s: seq<Option<nat>>, tag: Option<nat>): nat {
    if s == [] then 0 else (if s[0] == tag then 1 else 0) + Count(s[1..], tag)
  }

  function LineStep(l: Line, live: Option<nat>, a: Act): Line {
    match a
    case Tick(_) =>
      var k := Min(20, |l.queue|);
      l.(queue := l.queue[k..], played := l.played + Count(l.queue[..k], l.of),
         idle := l.idle + 20 - k)
    case ChunkWritten(id, ms, ok) =>
      if ok && ms > 0 then l.(queue := l.queue + Copies(Some(id), ms), lag := l.ahead + l.idle)
      else l.(lost := l.lost || !ok)
    case ClipWritten(ms, ok) =>
      if ok then l.(queue := l.queue + Copies(None, ms)) else l
    case Flushed(ok) => if ok then l.(queue := []) else l
    case StateChange(_, Speaking) => Line(l.queue, live, 0, |l.queue|, 0, |l.queue|, false)
    case _ => l
  }

  // --- all observers together

  datatype Seen = Seen(log: seq<Act>, proto: Proto, book: Book, calm: Calm, line: Line)

  const START := Seen([], Proto(true, Listening, None, 0, false, false), Book(true, [], [], None, NOTHING_SAID, false),
                      Calm(0, []), Line([], None, 0, 0, 0, 0, false))

  function Observe(s: Seen, a: Act): Seen {
    Seen(s.log + [a], ProtoStep(s.proto, a), BookStep(s.book, a), CalmStep(s.calm, a),
         LineStep(s.line, s.proto.live, a))
  }

  /** What the observers know after a whole log. */
  function Watched(log: seq<Act>): Seen {
    if log == [] then START else Observe(Watched(log[..|log| - 1]), log[|log| - 1])
  }

  /** Observers that are the outcome of their log. */
  type Watcher = s: Seen | s == Watched(s.log) witness START

  function Watch(w: Watcher, a: Act): (r: Watcher)
    ensures r == Observe(w, a)
  {
    assert (w.log + [a])[..|w.log|] == w.log;
    Observe(w, a)
  }
}
