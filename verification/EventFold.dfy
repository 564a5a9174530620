/** state = fold(events): the snapshot of a call from its unordered, duplicated events. */
module EventFold {
  import opened Common
  import opened Events

  // --- the snapshot

  datatype Status = Unknown | Started | Answered | Transferring | Transferred | Ended

  datatype Speaker = Caller | Agent

  datatype Entry = Entry(seqNo: nat, ts: int, speaker: Speaker, text: string,
                         redactions: seq<Redaction>, interrupted: bool)

  datatype Identity = Identity(callId: string, tenantId: string, flowId: string, flowVersion: int)

  datatype Lifecycle = Lifecycle(status: Status, startedAt: int, endedAt: int, endReason: string)

  datatype Consent = Consent(captured: bool, granted: bool, recording: bool)

  datatype Course = Course(locale: string, localeHistory: seq<string>, cursor: string, path: seq<string>,
                           vars: map<string, Json>)

  datatype Talk = Talk(transcript: seq<Entry>, latencies: seq<int>)

  datatype Budget = Budget(stage: string, errorCount: nat)

  /** Audio is counted in whole milliseconds where the Go code divides by 1000. */
  datatype Usage = Usage(callMinutes: int, sttMs: int, tokensIn: int, tokensOut: int, ttsChars: int)

  datatype Snapshot = Snapshot(id: Identity, life: Lifecycle, consent: Consent, course: Course,
                               talk: Talk, budget: Budget, usage: Usage, lastSeq: nat)

  const EMPTY := Snapshot(Identity("", "", "", 0), Lifecycle(Unknown, 0, 0, ""), Consent(false, false, false),
                          Course("", [], "", [], map[]), Talk([], []), Budget("normal", 0),
                          Usage(0, 0, 0, 0, 0), 0)

  /** Billed whole minutes, rounded up. */
  function CeilMinutes(durationMs: int): int {
    if durationMs <= 0 then 0 else (durationMs + 59999) / 60000
  }

  // --- one event

  function Identify(id: Identity, ev: Envelope): Identity {
    if id.callId == "" then Identity(ev.callId, ev.tenantId, ev.flowId, ev.flowVersion) else id
  }

  function ApplyLife(l: Lifecycle, ev: Envelope): Lifecycle {
    match ev.body
    case CallStarted(_) => l.(status := Started, startedAt := ev.ts)
    case CallAnswered => l.(status := Answered)
    case CallEnded(reason, _) => l.(status := Ended, endedAt := ev.ts, endReason := reason)
    case TransferInitiated => l.(status := Transferring)
    case TransferAnswered => l.(status := Transferred)
    case _ => l
  }

  function ApplyConsent(c: Consent, ev: Envelope): Consent {
    match ev.body
    case ConsentCaptured(granted) => c.(captured := true, granted := granted)
    case RecordingStarted => c.(recording := true)
    case _ => c
  }

  function ApplyCourse(c: Course, ev: Envelope): Course {
    match ev.body
    case LanguageDetected(loc) => c.(locale := loc, localeHistory := c.localeHistory + [loc])
    case LanguageSwitched(loc) => c.(locale := loc, localeHistory := c.localeHistory + [loc])
    case NodeEntered => c.(cursor := ev.nodeId, path := c.path + [ev.nodeId])
    case VarAssigned(name, value) => c.(vars := c.vars[name := value])
    case _ => c
  }

  function ApplyTalk(t: Talk, ev: Envelope): Talk {
    match ev.body
    case SttFinal(text, _) =>
      t.(transcript := t.transcript + [Entry(ev.seqNo, ev.ts, Caller, text, ev.redactions, false)])
    case AgentTurnCompleted(text, interrupted, perceivedMs, _, _, _) =>
      Talk(t.transcript + [Entry(ev.seqNo, ev.ts, Agent, text, ev.redactions, interrupted)],
           t.latencies + [perceivedMs])
    case _ => t
  }

  function ApplyBudget(b: Budget, ev: Envelope): Budget {
    match ev.body
    case ErrorRaised(stage) => Budget(if stage != "" then stage else b.stage, b.errorCount + 1)
    case _ => b
  }

  function ApplyUsage(u: Usage, ev: Envelope): Usage {
    match ev.body
    case CallEnded(_, durationMs) => u.(callMinutes := CeilMinutes(durationMs))
    case SttFinal(_, audioMs) => u.(sttMs := u.sttMs + audioMs)
    case AgentTurnCompleted(_, _, _, tokensIn, tokensOut, ttsChars) =>
      u.(tokensIn := u.tokensIn + tokensIn, tokensOut := u.tokensOut + tokensOut,
         ttsChars := u.ttsChars + ttsChars)
    case _ => u
  }

  datatype Folded = Ok(snap: Snapshot) | Err(seqNo: nat)

  /** One event on a snapshot; `LastSeq` is set with it, as the loop of `Fold` does. */
  function Apply(s: Snapshot, ev: Envelope): Folded {
    if ev.body.Malformed? then Err(ev.seqNo)
    else Ok(Snapshot(Identify(s.id, ev), ApplyLife(s.life, ev), ApplyConsent(s.consent, ev),
                     ApplyCourse(s.course, ev), ApplyTalk(s.talk, ev), ApplyBudget(s.budget, ev),
                     ApplyUsage(s.usage, ev), ev.seqNo))
  }

  /** In-order application of a whole list. */
  function ApplyAll(evs: seq<Envelope>): Folded {
    if evs == [] then Ok(EMPTY)
    else
      var r := ApplyAll(evs[..|evs| - 1]);
      if r.Err? then r else Apply(r.snap, evs[|evs| - 1])
  }

  // --- ordering and deduplication

  predicate Less(a: Envelope, b: Envelope) {
    a.seqNo < b.seqNo || (a.seqNo == b.seqNo && a.eventId < b.eventId)
  }

  function Insert(t: seq<Envelope>, e: Envelope): seq<Envelope> {
    if t == [] || !Less(e, t[|t| - 1]) then t + [e]
    else Insert(t[..|t| - 1], e) + [t[|t| - 1]]
  }

  /** `sort.SliceStable` by sequence number, ties by EventID. */
  function SortStable(s: seq<Envelope>): seq<Envelope> {
    if s == [] then [] else Insert(SortStable(s[..|s| - 1]), s[|s| - 1])
  }

  /** The sequence number of the last event applied, 0 when there is none. */
  function LastApplied(kept: seq<Envelope>): nat {
    if kept == [] then 0 else kept[|kept| - 1].seqNo
  }

  /** The events of an ordered list that are applied: a repeated number is skipped, unless it
      is 0. */
  function Kept(t: seq<Envelope>): seq<Envelope> {
    if t == [] then []
    else
      var k, e := Kept(t[..|t| - 1]), t[|t| - 1];
      if e.seqNo == LastApplied(k) && LastApplied(k) != 0 then k else k + [e]
  }

  function Fold(events: seq<Envelope>): Folded { ApplyAll(Kept(SortStable(events))) }

  // --- the fold does not depend on the delivery

  ghost predicate Sorted(t: seq<Envelope>) {
    forall i, j :: 0 <= i < j < |t| ==> !Less(t[j], t[i])
  }

  /** Sequence number and EventID together name one event. */
  ghost predicate Identified(s: seq<Envelope>) {
    forall a, b :: a in s && b in s && a.seqNo == b.seqNo && a.eventId == b.eventId ==> a == b
  }

  ghost predicate Numbered(s: seq<Envelope>) { forall e :: e in s ==> e.seqNo >= 1 }

  lemma {:induction false} InsertAdds(t: seq<Envelope>, e: Envelope)
    ensures multiset(Insert(t, e)) == multiset(t) + multiset{e}
  {
    if t != [] && Less(e, t[|t| - 1]) {
      InsertAdds(t[..|t| - 1], e);
      assert t == t[..|t| - 1] + [t[|t| - 1]];
    }
  }

  lemma {:induction false} InsertSorted(t: seq<Envelope>, e: Envelope)
    requires Sorted(t)
    ensures Sorted(Insert(t, e))
  {
    if t == [] {
    } else if Less(e, t[|t| - 1]) {
      var u, last := t[..|t| - 1], t[|t| - 1];
      InsertSorted(u, e);
      forall x | x in Insert(u, e) ensures !Less(last, x) {
        InsertAdds(u, e);
        assert x in multiset(Insert(u, e));
        if x in u { SortedLast(t, x); }
      }
      LastSorted(Insert(u, e), last);
    } else {
      forall x | x in t ensures !Less(e, x) { SortedLast(t, x); }
      LastSorted(t, e);
    }
  }

  lemma LastSorted(t: seq<Envelope>, e: Envelope)
    requires Sorted(t) && forall x :: x in t ==> !Less(e, x)
    ensures Sorted(t + [e])
  {
    hide Less;
  }

  lemma {:induction false} SortSorts(s: seq<Envelope>)
    ensures Sorted(SortStable(s)) && multiset(SortStable(s)) == multiset(s)
    ensures forall e :: e in SortStable(s) <==> e in s
  {
    if s != [] {
      SortSorts(s[..|s| - 1]);
      InsertSorted(SortStable(s[..|s| - 1]), s[|s| - 1]);
      InsertAdds(SortStable(s[..|s| - 1]), s[|s| - 1]);
      MultisetFront(s);
    }
    hide SortStable;
    SameMembers(SortStable(s), s);
  }

  lemma SameMembers(a: seq<Envelope>, b: seq<Envelope>)
    requires multiset(a) == multiset(b)
    ensures forall e :: e in a <==> e in b
  {
    forall e ensures e in a <==> e in b {
      assert e in a <==> e in multiset(a);
      assert e in b <==> e in multiset(b);
    }
  }

  /** Among events with one sequence number the smallest EventID is the one applied. */
  ghost predicate First(s: seq<Envelope>, e: Envelope) {
    e in s && forall f :: f in s && f.seqNo == e.seqNo ==> e.eventId <= f.eventId
  }

  ghost predicate Rising(k: seq<Envelope>) {
    forall i, j :: 0 <= i < j < |k| ==> k[i].seqNo < k[j].seqNo
  }

  /** Nothing in a sorted list comes after its last event. */
  lemma SortedLast(t: seq<Envelope>, e: Envelope)
    requires Sorted(t) && e in t
    ensures t[|t| - 1] == e || !Less(t[|t| - 1], e)
    ensures e.seqNo <= t[|t| - 1].seqNo
    ensures e.seqNo == t[|t| - 1].seqNo ==> e.eventId <= t[|t| - 1].eventId
  {
    var i :| 0 <= i < |t| && t[i] == e;
    assert i < |t| - 1 ==> !Less(t[|t| - 1], t[i]);
  }

  lemma SortedFront(t: seq<Envelope>)
    requires Sorted(t) && t != []
    ensures Sorted(t[..|t| - 1])
  {}

  lemma {:induction false} KeptOfSorted(t: seq<Envelope>)
    requires Sorted(t) && Numbered(t) && Identified(t)
    ensures Rising(Kept(t)) && (t != [] ==> LastApplied(Kept(t)) == t[|t| - 1].seqNo)
    ensures forall e :: e in Kept(t) <==> First(t, e)
  {
    if t != [] {
      var u, x := t[..|t| - 1], t[|t| - 1];
      assert t == u + [x];
      SortedFront(t);
      KeptOfSorted(u) by { forall e | e in u ensures e in t {} }
      hide Sorted, Numbered;
      if u != [] && x.seqNo == u[|u| - 1].seqNo {
        KeptSkips(u, x);
      } else {
        KeptAppends(u, x);
      }
    }
  }

  /** An event whose number was just applied changes neither side. */
  lemma KeptSkips(u: seq<Envelope>, x: Envelope)
    requires Sorted(u + [x]) && Identified(u + [x])
    requires Kept(u) != [] && LastApplied(Kept(u)) == x.seqNo
    requires forall e :: e in Kept(u) <==> First(u, e)
    ensures forall e :: e in Kept(u) <==> First(u + [x], e)
  {
    hide Sorted, Kept;
    var w := Kept(u)[|Kept(u)| - 1];
    assert First(u, w) by { assert w in Kept(u); }
    SortedLast(u + [x], w);
    FirstOfCopy(u, x, w);
  }

  lemma FirstOfCopy(u: seq<Envelope>, x: Envelope, w: Envelope)
    requires First(u, w) && w.seqNo == x.seqNo && w.eventId <= x.eventId && Identified(u + [x])
    ensures forall e :: First(u, e) <==> First(u + [x], e)
  {
    assert w in u + [x] && x in u + [x];
    assert w.eventId == x.eventId ==> w == x;
    hide Identified;
    forall e ensures First(u, e) <==> First(u + [x], e) {
      if First(u, e) && e.seqNo == x.seqNo { assert e.eventId <= w.eventId; }
    }
  }

  lemma NewNumberIsLargest(u: seq<Envelope>, x: Envelope)
    requires Sorted(u + [x])
    requires u != [] ==> x.seqNo != u[|u| - 1].seqNo
    ensures forall e :: e in u ==> e.seqNo < x.seqNo
  {
    var t := u + [x];
    assert t[..|t| - 1] == u && t[|t| - 1] == x;
    SortedFront(t);
    if u != [] {
      SortedLast(t, u[|u| - 1]);
      hide Sorted;
      forall e | e in u ensures e.seqNo < x.seqNo { SortedLast(u, e); }
    }
  }

  /** An event with a new number is appended. */
  lemma KeptAppends(u: seq<Envelope>, x: Envelope)
    requires Sorted(u + [x]) && Rising(Kept(u))
    requires u != [] ==> x.seqNo != u[|u| - 1].seqNo
    requires forall e :: e in Kept(u) <==> First(u, e)
    ensures Rising(Kept(u) + [x])
    ensures forall e :: e in Kept(u) + [x] <==> First(u + [x], e)
  {
    hide Sorted, Less, Kept;
    NewNumberIsLargest(u, x);
    var k := Kept(u);
    forall e | e in k ensures e.seqNo < x.seqNo { assert First(u, e); }
    assert Rising(k + [x]);
    hide Rising;
    forall e ensures e in k + [x] <==> First(u + [x], e) {
      assert e in k <==> First(u, e);
    }
  }

  /** A rising list is determined by its elements. */
  lemma {:induction false} RisingUnique(a: seq<Envelope>, b: seq<Envelope>)
    requires Rising(a) && Rising(b) && forall e :: e in a <==> e in b
    ensures a == b
  {
    hide Rising;
    assert (b != [] ==> b[0] in a) && (a != [] ==> a[0] in b);
    if a != [] {
      SameLast(a, b);
      RisingFront(a);
      RisingFront(b);
      var u, v, x := a[..|a| - 1], b[..|b| - 1], a[|a| - 1];
      SameFront(a, b, u, v, x);
      RisingUnique(u, v);
      assert a == u + [x] && b == v + [x];
    }
  }

  lemma SameFront(a: seq<Envelope>, b: seq<Envelope>, u: seq<Envelope>, v: seq<Envelope>, x: Envelope)
    requires forall e :: e in a <==> e in b
    requires (forall e :: e in u <==> e in a && e != x) && forall e :: e in v <==> e in b && e != x
    ensures forall e :: e in u <==> e in v
  {}

  lemma SameLast(a: seq<Envelope>, b: seq<Envelope>)
    requires Rising(a) && Rising(b) && a != [] && b != [] && forall e :: e in a <==> e in b
    ensures a[|a| - 1] == b[|b| - 1]
  {
    assert a[|a| - 1] in b && b[|b| - 1] in a;
  }

  /** All but the last of a rising list. */
  lemma RisingFront(a: seq<Envelope>)
    requires Rising(a) && a != []
    ensures Rising(a[..|a| - 1]) && forall e :: e in a[..|a| - 1] <==> e in a && e != a[|a| - 1]
  {
    assert a == a[..|a| - 1] + [a[|a| - 1]];
  }

  /** The fold depends only on the set of envelopes: any two deliveries of the same events,
      in any order and with any duplication, give the same snapshot or the same error. */
  lemma FoldDependsOnlyOnSet(s1: seq<Envelope>, s2: seq<Envelope>)
    requires forall e :: e in s1 <==> e in s2
    requires Numbered(s1) && Identified(s1)
    ensures Fold(s1) == Fold(s2)
  {
    SortSorts(s1);
    SortSorts(s2);
    KeptOfSorted(SortStable(s1));
    KeptOfSorted(SortStable(s2));
    forall e ensures First(SortStable(s1), e) <==> First(SortStable(s2), e) {}
    RisingUnique(Kept(SortStable(s1)), Kept(SortStable(s2)));
  }

  /** What is folded is the list of first events per sequence number, in order. */
  lemma FoldIsInOrderApplication(s: seq<Envelope>, k: seq<Envelope>)
    requires Numbered(s) && Identified(s) && Rising(k) && forall e :: e in k <==> First(s, e)
    ensures Fold(s) == ApplyAll(k)
  {
    SortSorts(s);
    KeptOfSorted(SortStable(s));
    forall e ensures First(SortStable(s), e) <==> First(s, e) {}
    RisingUnique(Kept(SortStable(s)), k);
  }

  // --- events numbered 0

  /** Two sorted lists with the same events end with the same event. */
  lemma SortedLastUnique(a: seq<Envelope>, b: seq<Envelope>)
    requires Sorted(a) && Sorted(b) && multiset(a) == multiset(b) && Identified(a)
    requires a != [] && b != []
    ensures a[|a| - 1] == b[|b| - 1]
  {
    var x, y := a[|a| - 1], b[|b| - 1];
    assert x in multiset(b) && y in multiset(a);
    SortedLast(a, y);
    SortedLast(b, x);
  }

  lemma IdentifiedFront(a: seq<Envelope>)
    requires Identified(a) && a != []
    ensures Identified(a[..|a| - 1])
  {
    forall e | e in a[..|a| - 1] ensures e in a {}
  }

  lemma MultisetFront(a: seq<Envelope>)
    requires a != []
    ensures multiset(a[..|a| - 1]) == multiset(a) - multiset{a[|a| - 1]}
  {
    assert a == a[..|a| - 1] + [a[|a| - 1]];
  }

  lemma {:induction false} SortedUnique(a: seq<Envelope>, b: seq<Envelope>)
    requires Sorted(a) && Sorted(b) && multiset(a) == multiset(b) && Identified(a)
    ensures a == b
  {
    hide Sorted, Identified;
    assert |a| == |multiset(a)| == |multiset(b)| == |b|;
    if a != [] {
      SortedLastUnique(a, b);
      MultisetFront(a);
      MultisetFront(b);
      SortedFront(a);
      SortedFront(b);
      IdentifiedFront(a);
      SortedUnique(a[..|a| - 1], b[..|b| - 1]);
      assert a == a[..|a| - 1] + [a[|a| - 1]] && b == b[..|b| - 1] + [b[|b| - 1]];
    }
  }

  /** Reordering never matters, whatever the numbers. */
  lemma FoldIgnoresOrder(s1: seq<Envelope>, s2: seq<Envelope>)
    requires multiset(s1) == multiset(s2) && Identified(s1)
    ensures Fold(s1) == Fold(s2)
  {
    SortSorts(s1);
    SortSorts(s2);
    SortedUnique(SortStable(s1), SortStable(s2));
  }

  lemma {:induction false} KeptConcat(a: seq<Envelope>, b: seq<Envelope>, rest: seq<Envelope>)
    requires Kept(a) == Kept(b)
    ensures Kept(a + rest) == Kept(b + rest)
  {
    if rest == [] {
      assert a + rest == a && b + rest == b;
    } else {
      var r := rest[..|rest| - 1];
      KeptConcat(a, b, r);
      assert (a + rest)[..|a + rest| - 1] == a + r && (b + rest)[..|b + rest| - 1] == b + r;
    }
  }

  lemma {:induction false} LastKeptIsLast(t: seq<Envelope>)
    requires t != []
    ensures Kept(t) != [] && LastApplied(Kept(t)) == t[|t| - 1].seqNo
  {
    if |t| > 1 { LastKeptIsLast(t[..|t| - 1]); }
  }

  /** A copy of a numbered event is inserted next to it and skipped. */
  lemma {:induction false} InsertCopySkipped(t: seq<Envelope>, e: Envelope)
    requires Sorted(t) && Identified(t) && e in t && e.seqNo != 0
    ensures Kept(Insert(t, e)) == Kept(t)
  {
    var u, last := t[..|t| - 1], t[|t| - 1];
    assert t == u + [last];
    if Less(e, last) {
      InsertCopySkipped(u, e);
      KeptConcat(Insert(u, e), u, [last]);
    } else {
      var i :| 0 <= i < |t| && t[i] == e;
      assert !Less(last, e);
      assert last == e;
      LastKeptIsLast(t);
      assert (t + [e])[..|t|] == t;
    }
  }

  function ErrorAtZero(): Envelope { Envelope(0, "c", 0, 0, "t", "f", 1, "", ErrorRaised(""), []) }

  lemma ZeroIsNotDeduplicated()
    ensures Fold([ErrorAtZero()] + [ErrorAtZero()]) != Fold([ErrorAtZero()])
  {
    var e := ErrorAtZero();
    var s := [e] + [e];
    assert s[..1] == [e] && [e][..0] == [];
    assert SortStable([e]) == [e] by { assert SortStable([e]) == Insert(SortStable([]), e); }
    assert SortStable(s) == s;
    assert Kept([e]) == [e] by { assert Kept([e]) == Kept([]) + [e]; }
    assert Kept(s) == s;
    assert ApplyAll([]).snap.budget.errorCount == 0;
    assert ApplyAll([e]).Ok? && ApplyAll([e]).snap.budget.errorCount == 1;
    assert ApplyAll(s).Ok? && ApplyAll(s).snap.budget.errorCount == 2;
  }

  ghost predicate CopyIgnored(s: seq<Envelope>, e: Envelope) { Fold(s + [e]) == Fold(s) }

  /** Delivering an event a second time is harmless, in every stream, exactly for the events
      whose sequence number is not 0. */
  lemma CopiesAreIgnoredIffNumbered(z: nat)
    ensures (forall s: seq<Envelope>, e: Envelope :: e in s && e.seqNo == z && Identified(s) ==> CopyIgnored(s, e))
       <==> z != 0
  {
    if z == 0 {
      var e := ErrorAtZero();
      ZeroIsNotDeduplicated();
      assert e in [e] && Identified([e]) && !CopyIgnored([e], e);
    } else {
      forall s: seq<Envelope>, e: Envelope | e in s && e.seqNo == z && Identified(s) ensures CopyIgnored(s, e) {
        SortSorts(s);
        InsertCopySkipped(SortStable(s), e);
        assert (s + [e])[..|s|] == s;
      }
    }
  }

  // --- the snapshot is coherent

  function AgentEntries(t: seq<Entry>): nat {
    if t == [] then 0 else AgentEntries(t[..|t| - 1]) + if t[|t| - 1].speaker.Agent? then 1 else 0
  }

  /** The last of `evs` that assigns variable `name` is event `i`. */
  ghost predicate LastWriter(evs: seq<Envelope>, name: string, i: int) {
    && 0 <= i < |evs| && evs[i].body.VarAssigned? && evs[i].body.name == name
    && forall j :: i < j < |evs| && evs[j].body.VarAssigned? ==> evs[j].body.name != name
  }

  /** Entries in order up to `lastSeq`, one latency per agent entry. */
  ghost predicate TalkCoherent(t: Talk, lastSeq: nat) {
    && (forall i, j :: 0 <= i < j < |t.transcript| ==> t.transcript[i].seqNo < t.transcript[j].seqNo)
    && (forall i :: 0 <= i < |t.transcript| ==> t.transcript[i].seqNo <= lastSeq)
    && |t.latencies| == AgentEntries(t.transcript)
  }

  /** The cursor and the locale are the last entries of their histories. */
  ghost predicate CourseCoherent(c: Course) {
    && c.cursor == (if c.path == [] then "" else c.path[|c.path| - 1])
    && c.locale == (if c.localeHistory == [] then "" else c.localeHistory[|c.localeHistory| - 1])
  }

  ghost predicate Coherent(s: Snapshot) { TalkCoherent(s.talk, s.lastSeq) && CourseCoherent(s.course) }

  lemma EntryCoherent(t: Talk, e: Entry, latencies: seq<int>, lastSeq: nat)
    requires TalkCoherent(t, lastSeq) && lastSeq < e.seqNo
    requires |latencies| == |t.latencies| + if e.speaker.Agent? then 1 else 0
    ensures TalkCoherent(Talk(t.transcript + [e], latencies), e.seqNo)
  {
    assert (t.transcript + [e])[..|t.transcript|] == t.transcript;
  }

  lemma ApplyCoherent(s: Snapshot, ev: Envelope)
    requires Coherent(s) && s.lastSeq < ev.seqNo && !ev.body.Malformed?
    ensures Coherent(Apply(s, ev).snap)
  {
    assert CourseCoherent(ApplyCourse(s.course, ev));
    hide CourseCoherent, ApplyCourse;
    match ev.body
    case SttFinal(text, _) =>
      EntryCoherent(s.talk, Entry(ev.seqNo, ev.ts, Caller, text, ev.redactions, false), s.talk.latencies, s.lastSeq);
    case AgentTurnCompleted(text, interrupted, perceivedMs, _, _, _) =>
      EntryCoherent(s.talk, Entry(ev.seqNo, ev.ts, Agent, text, ev.redactions, interrupted),
                    s.talk.latencies + [perceivedMs], s.lastSeq);
    case _ =>
  }

  lemma {:induction false} ApplyAllCoherent(evs: seq<Envelope>)
    requires Rising(evs) && Numbered(evs) && ApplyAll(evs).Ok?
    ensures Coherent(ApplyAll(evs).snap)
    ensures ApplyAll(evs).snap.lastSeq == LastApplied(evs)
  {
    if evs != [] {
      var u := evs[..|evs| - 1];
      forall e | e in u ensures e in evs {}
      ApplyAllCoherent(u);
      assert evs[|evs| - 1] in evs;
      ApplyCoherent(ApplyAll(u).snap, evs[|evs| - 1]);
    }
  }

  lemma {:induction false} VarsAreLastWritten(evs: seq<Envelope>, name: string)
    requires ApplyAll(evs).Ok?
    ensures var vars := ApplyAll(evs).snap.course.vars;
            && (name in vars <==> exists i :: LastWriter(evs, name, i))
            && forall i :: LastWriter(evs, name, i) ==> name in vars && vars[name] == evs[i].body.value
  {
    if evs != [] {
      var u, e := evs[..|evs| - 1], evs[|evs| - 1];
      VarsAreLastWritten(u, name);
      if e.body.VarAssigned? && e.body.name == name {
        assert LastWriter(evs, name, |evs| - 1);
      } else {
        forall i ensures LastWriter(evs, name, i) <==> LastWriter(u, name, i) {
          if LastWriter(u, name, i) {
            forall j | i < j < |evs| && evs[j].body.VarAssigned? ensures evs[j].body.name != name {
              if j < |u| { assert u[j] == evs[j]; }
            }
          }
          if LastWriter(evs, name, i) {
            assert i < |u|;
            forall j | i < j < |u| && u[j].body.VarAssigned? ensures u[j].body.name != name {
              assert u[j] == evs[j];
            }
          }
        }
        if i :| LastWriter(u, name, i) { assert LastWriter(evs, name, i); }
      }
    }
  }

  /** Whatever the delivery, a successful fold of numbered events is coherent and remembers the
      highest number. */
  lemma FoldIsCoherent(s: seq<Envelope>)
    requires Numbered(s) && Identified(s) && Fold(s).Ok?
    ensures Coherent(Fold(s).snap)
    ensures forall e :: e in s ==> e.seqNo <= Fold(s).snap.lastSeq
    ensures s != [] ==> exists e :: e in s && e.seqNo == Fold(s).snap.lastSeq
  {
    SortSorts(s);
    var t := SortStable(s);
    KeptOfSorted(t);
    forall e | e in Kept(t) ensures e in t { assert First(t, e); }
    ApplyAllCoherent(Kept(t));
    forall e | e in s ensures e.seqNo <= Fold(s).snap.lastSeq {
      assert e in t;
      var i :| 0 <= i < |t| && t[i] == e;
      assert i < |t| - 1 ==> !Less(t[|t| - 1], t[i]);
    }
    if s != [] {
      assert |multiset(s)| == |s| && |multiset(t)| == |t|;
      assert t[|t| - 1] in s;
    }
  }

  ghost predicate FirstMalformed(evs: seq<Envelope>, i: int) {
    && 0 <= i < |evs| && evs[i].body.Malformed?
    && forall j :: 0 <= j < i ==> !evs[j].body.Malformed?
  }

  /** A fold fails exactly when an event it applies does not decode, and names the first one. */
  lemma {:induction false} FailsAtFirstMalformed(evs: seq<Envelope>)
    ensures ApplyAll(evs).Err? <==> exists i :: FirstMalformed(evs, i)
    ensures forall i :: FirstMalformed(evs, i) ==> ApplyAll(evs) == Err(evs[i].seqNo)
  {
    if evs != [] {
      var u := evs[..|evs| - 1];
      FailsAtFirstMalformed(u);
      forall i ensures FirstMalformed(u, i) ==> FirstMalformed(evs, i) {}
      forall i ensures FirstMalformed(evs, i) && i < |u| ==> FirstMalformed(u, i) {
        if FirstMalformed(evs, i) && i < |u| { assert u[i] == evs[i]; }
      }
      if ApplyAll(u).Ok? && evs[|evs| - 1].body.Malformed? {
        NoneMalformed(u);
        assert FirstMalformed(evs, |evs| - 1);
      }
    }
  }

  lemma {:induction false} NoneMalformed(evs: seq<Envelope>)
    requires forall i :: !FirstMalformed(evs, i)
    ensures forall i :: 0 <= i < |evs| ==> !evs[i].body.Malformed?
  {
    if evs != [] {
      var u, n := evs[..|evs| - 1], |evs| - 1;
      forall i ensures !FirstMalformed(u, i) {
        assert !FirstMalformed(evs, i);
      }
      NoneMalformed(u);
      forall j | 0 <= j < n ensures !evs[j].body.Malformed? { assert u[j] == evs[j]; }
      assert !FirstMalformed(evs, n);
    }
  }

  // --- the snapshot as the object the loop updates

  /** The fields are grouped as in the value above. */
  class CallSnapshot {
    var id: Identity
    var life: Lifecycle
    var consent: Consent
    var course: Course
    var talk: Talk
    var budget: Budget
    var usage: Usage
    var lastSeq: nat

    function View(): Snapshot
      reads this
    {
      Snapshot(id, life, consent, course, talk, budget, usage, lastSeq)
    }

    constructor ()
      ensures View() == EMPTY
    {
      id, life, consent := Identity("", "", "", 0), Lifecycle(Unknown, 0, 0, ""), Consent(false, false, false);
      course, talk, budget := Course("", [], "", [], map[]), Talk([], []), Budget("normal", 0);
      usage, lastSeq := Usage(0, 0, 0, 0, 0), 0;
    }

    /** `LastSeq` is left for the loop to set. */
    method ApplyOne(ev: Envelope) returns (ok: bool)
      modifies this
      ensures ok == Apply(old(View()), ev).Ok?
      ensures ok ==> View().(lastSeq := ev.seqNo) == Apply(old(View()), ev).snap
    {
      if id.callId == "" {
        id := Identity(ev.callId, ev.tenantId, ev.flowId, ev.flowVersion);
      }
      match ev.body {
        case Malformed => return false;
        case CallStarted(_) => life := life.(status := Started, startedAt := ev.ts);
        case CallAnswered => life := life.(status := Answered);
        case CallEnded(reason, durationMs) =>
          life := life.(status := Ended, endedAt := ev.ts, endReason := reason);
          usage := usage.(callMinutes := CeilMinutes(durationMs));
        case ConsentCaptured(granted) => consent := consent.(captured := true, granted := granted);
        case LanguageDetected(loc) => course := course.(locale := loc, localeHistory := course.localeHistory + [loc]);
        case LanguageSwitched(loc) => course := course.(locale := loc, localeHistory := course.localeHistory + [loc]);
        case NodeEntered => course := course.(cursor := ev.nodeId, path := course.path + [ev.nodeId]);
        case SttFinal(text, audioMs) =>
          talk := talk.(transcript := talk.transcript + [Entry(ev.seqNo, ev.ts, Caller, text, ev.redactions, false)]);
          usage := usage.(sttMs := usage.sttMs + audioMs);
        case AgentTurnCompleted(text, interrupted, perceivedMs, tokensIn, tokensOut, ttsChars) =>
          var entry := Entry(ev.seqNo, ev.ts, Agent, text, ev.redactions, interrupted);
          talk := talk.(transcript := talk.transcript + [entry]);
          talk := talk.(latencies := talk.latencies + [perceivedMs]);
          usage := usage.(tokensIn := usage.tokensIn + tokensIn, tokensOut := usage.tokensOut + tokensOut,
                          ttsChars := usage.ttsChars + ttsChars);
        case VarAssigned(name, value) => course := course.(vars := course.vars[name := value]);
        case TransferInitiated => life := life.(status := Transferring);
        case TransferAnswered => life := life.(status := Transferred);
        case RecordingStarted => consent := consent.(recording := true);
        case ErrorRaised(stage) =>
          budget := budget.(errorCount := budget.errorCount + 1);
          if stage != "" {
            budget := budget.(stage := stage);
          }
        case NodeExited | ToolOrDtmf | UnknownType =>
      }
      return true;
    }
  }

  lemma {:induction false} FailureStays(t: seq<Envelope>, n: nat)
    requires n <= |t| && ApplyAll(Kept(t[..n])).Err?
    ensures ApplyAll(Kept(t)) == ApplyAll(Kept(t[..n]))
  {
    if n == |t| {
      assert t[..n] == t;
    } else {
      var u, k := t[..|t| - 1], Kept(t[..|t| - 1]);
      assert u[..n] == t[..n];
      FailureStays(u, n);
      assert (k + [t[|t| - 1]])[..|k|] == k;
    }
  }

  /** The loop over the sorted copy computes the fold. */
  method FoldEvents(events: seq<Envelope>) returns (r: Folded)
    ensures r == Fold(events)
  {
    var ordered := SortStable(events);
    var snap := new CallSnapshot();
    var lastApplied := 0;
    hide Identify, ApplyLife, ApplyConsent, ApplyCourse, ApplyTalk, ApplyBudget, ApplyUsage, SortStable;
    for i := 0 to |ordered|
      invariant fresh(snap)
      invariant lastApplied == LastApplied(Kept(ordered[..i]))
      invariant ApplyAll(Kept(ordered[..i])) == Ok(snap.View())
    {
      hide Kept, ApplyAll, LastApplied;
      var ev := ordered[i];
      KeptNext(ordered, i);
      if ev.seqNo == lastApplied && lastApplied != 0 {
        continue;
      }
      ApplyAllNext(Kept(ordered[..i]), ev);
      var ok := snap.ApplyOne(ev);
      if !ok {
        FailureStays(ordered, i + 1);
        return Err(ev.seqNo);
      }
      lastApplied := ev.seqNo;
      snap.lastSeq := ev.seqNo;
    }
    assert ordered[..|ordered|] == ordered;
    return Ok(snap.View());
  }

  lemma KeptNext(t: seq<Envelope>, i: nat)
    requires i < |t|
    ensures var k, ev := Kept(t[..i]), t[i];
            Kept(t[..i + 1]) == if ev.seqNo == LastApplied(k) && LastApplied(k) != 0 then k else k + [ev]
  {
    assert t[..i + 1][..i] == t[..i];
  }

  lemma ApplyAllNext(k: seq<Envelope>, ev: Envelope)
    requires ApplyAll(k).Ok?
    ensures ApplyAll(k + [ev]) == Apply(ApplyAll(k).snap, ev)
    ensures LastApplied(k + [ev]) == ev.seqNo
  {
    hide Apply;
    assert (k + [ev])[..|k|] == k;
  }
}
