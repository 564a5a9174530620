/** The playout tracker: what was written to the line against what the caller heard. */
module Playout {
  import opened Common
  import opened Text

  /** A synthesized word; in a chunk its times are relative to the chunk, in a tracker to
      the utterance. */
  datatype WordTiming = WordTiming(word: string, startMs: int, endMs: int)

  /** One piece of synthesized audio, without its samples. */
  datatype Chunk = Chunk(durationMs: nat, words: seq<WordTiming>)

  datatype Tracker = Tracker(offsetMs: int, writtenMs: int, words: seq<WordTiming>)

  /** The mark of an utterance that was cut short. */
  const CUT := "—"

  function Shift(w: WordTiming, base: int): WordTiming {
    WordTiming(w.word, w.startMs + base, w.endMs + base)
  }

  function Rebase(words: seq<WordTiming>, base: int): (r: seq<WordTiming>)
    ensures |r| == |words|
  {
    seq(|words|, i requires 0 <= i < |words| => Shift(words[i], base))
  }

  function Extend(t: Tracker, c: Chunk): Tracker {
    Tracker(t.offsetMs, t.writtenMs + c.durationMs, t.words + Rebase(c.words, t.writtenMs))
  }

  function WordsOf(words: seq<WordTiming>): (r: seq<string>)
    ensures |r| == |words|
  {
    seq(|words|, i requires 0 <= i < |words| => words[i].word)
  }

  /** How many leading words end by `heardMs`, up to the first that does not. */
  function HeardCount(words: seq<WordTiming>, heardMs: int): (k: nat)
    ensures k <= |words|
  {
    if words == [] || words[0].endMs > heardMs then 0 else 1 + HeardCount(words[1..], heardMs)
  }

  function HeardMs(t: Tracker, playedMs: int): int { Max(0, playedMs - t.offsetMs) }

  function Whole(t: Tracker): string { Join(WordsOf(t.words)) }

  function Marked(text: string): string {
    if text == "" then CUT else text + " " + CUT
  }

  /** The text the caller heard after `playedMs` of playout, and whether it was cut. */
  function SpokenBy(t: Tracker, playedMs: int): (string, bool) {
    var k := HeardCount(t.words, HeardMs(t, playedMs));
    var text := Join(WordsOf(t.words[..k]));
    if k < |t.words| then (Marked(text), true) else (text, false)
  }

  ghost predicate AllEnded(words: seq<WordTiming>, n: nat, heardMs: int)
    requires n <= |words|
  {
    forall i :: 0 <= i < n ==> words[i].endMs <= heardMs
  }

  /** `HeardCount` words is the longest prefix all of whose words have ended. */
  lemma {:induction false} HeardIsLongestPrefix(words: seq<WordTiming>, heardMs: int, n: nat)
    requires n <= |words|
    ensures n <= HeardCount(words, heardMs) <==> AllEnded(words, n, heardMs)
  {
    if n > 0 && words[0].endMs <= heardMs {
      HeardIsLongestPrefix(words[1..], heardMs, n - 1);
      if AllEnded(words[1..], n - 1, heardMs) {
        forall i | 0 <= i < n ensures words[i].endMs <= heardMs {
          assert i > 0 ==> words[i] == words[1..][i - 1];
        }
      }
    }
  }

  /** Nothing is marked as cut, and the full text is recorded, exactly when every word has
      ended by the time heard. */
  lemma UncutIffAllWordsEnded(t: Tracker, playedMs: int)
    ensures !SpokenBy(t, playedMs).1 <==>
            forall i :: 0 <= i < |t.words| ==> t.words[i].endMs <= HeardMs(t, playedMs)
    ensures !SpokenBy(t, playedMs).1 ==> SpokenBy(t, playedMs).0 == Whole(t)
  {
    HeardIsLongestPrefix(t.words, HeardMs(t, playedMs), |t.words|);
    assert t.words[..|t.words|] == t.words;
  }

  /** The tracker of an utterance whose chunks were `chunks`. */
  function Track(offsetMs: int, chunks: seq<Chunk>): Tracker {
    if chunks == [] then Tracker(offsetMs, 0, [])
    else Extend(Track(offsetMs, chunks[..|chunks| - 1]), chunks[|chunks| - 1])
  }

  ghost predicate WordsInside(c: Chunk) {
    forall i :: 0 <= i < |c.words| ==> c.words[i].endMs <= c.durationMs
  }

  /** An utterance whose words end inside their chunks is recorded in full once everything
      written has been played, whatever the offset. */
  lemma {:induction false} PlayedOutRecordsFullText(offsetMs: int, chunks: seq<Chunk>)
    requires forall c :: c in chunks ==> WordsInside(c)
    ensures var t := Track(offsetMs, chunks);
            && t.writtenMs >= 0
            && (forall i :: 0 <= i < |t.words| ==> t.words[i].endMs <= t.writtenMs)
            && SpokenBy(t, t.writtenMs + offsetMs) == (Whole(t), false)
  {
    var t := Track(offsetMs, chunks);
    assert t.offsetMs == offsetMs by { TrackOffset(offsetMs, chunks); }
    if chunks != [] {
      var before, c := chunks[..|chunks| - 1], chunks[|chunks| - 1];
      PlayedOutRecordsFullText(offsetMs, before);
      assert WordsInside(c);
    }
    UncutIffAllWordsEnded(t, t.writtenMs + offsetMs);
  }

  lemma {:induction false} TrackOffset(offsetMs: int, chunks: seq<Chunk>)
    ensures Track(offsetMs, chunks).offsetMs == offsetMs
  {
    if chunks != [] { TrackOffset(offsetMs, chunks[..|chunks| - 1]); }
  }

  /** A truncated utterance always carries the cut mark at its end. */
  lemma CutIsMarked(t: Tracker, playedMs: int)
    requires SpokenBy(t, playedMs).1
    ensures var text := SpokenBy(t, playedMs).0; |text| > 0 && text[|text| - 1] == CUT[0]
  {
    assert CUT[0] == '—' && |CUT| == 1;
  }

  class PlayoutTracker {
    const offsetMs: int
    var writtenMs: int
    var words: seq<WordTiming>

    ghost function View(): Tracker
      reads this
    {
      Tracker(offsetMs, writtenMs, words)
    }

    constructor (offsetMs: int)
      ensures View() == Tracker(offsetMs, 0, [])
    {
      this.offsetMs := offsetMs;
      writtenMs, words := 0, [];
    }

    method AddChunk(c: Chunk)
      modifies this
      ensures View() == Extend(old(View()), c)
    {
      for i := 0 to |c.words|
        invariant writtenMs == old(writtenMs)
        invariant words == old(words) + Rebase(c.words, old(writtenMs))[..i]
      {
        var w := c.words[i];
        words := words + [WordTiming(w.word, w.startMs + writtenMs, w.endMs + writtenMs)];
      }
      writtenMs := writtenMs + c.durationMs;
    }

    method FullText() returns (text: string)
      ensures text == Whole(View())
    {
      var parts := [];
      for i := 0 to |words|
        invariant parts == WordsOf(words)[..i]
      {
        parts := parts + [words[i].word];
      }
      assert WordsOf(words)[..|words|] == WordsOf(words);
      return Join(parts);
    }

    method Spoken(playedMs: int) returns (text: string, cut: bool)
      ensures (text, cut) == SpokenBy(View(), playedMs)
    {
      var heardMs := playedMs - offsetMs;
      if heardMs < 0 {
        heardMs := 0;
      }
      var parts, i := [], 0;
      while i < |words| && words[i].endMs <= heardMs
        invariant 0 <= i <= |words|
        invariant parts == WordsOf(words[..i])
        invariant HeardCount(words, heardMs) == i + HeardCount(words[i..], heardMs)
      {
        assert words[i..][1..] == words[i + 1..];
        parts := parts + [words[i].word];
        i := i + 1;
      }
      cut := |parts| < |words|;
      text := Join(parts);
      if cut {
        if text == "" {
          text := CUT;
        } else {
          text := text + " " + CUT;
        }
      }
    }
  }
}
