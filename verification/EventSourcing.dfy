/** From the emitter to the fold: numbering, flushing with failures, delivery. One emitter per
    call; payloads arrive here already redacted (module Pii). */
module EventSourcing {
  import opened Common
  import opened Events
  import opened EventFold

  /** What a call to `emit` meets: an `stt.partial`, a payload the contract rejects, or a valid one. */
  datatype Emission =
    | Partial
    | Invalid
    | Valid(eventId: nat, ts: int, nodeId: string, body: Body, redactions: seq<Redaction>)

  /** A publish is stored and acknowledged, or raises with the event stored or lost. */
  datatype Outcome = Acked | RaisedStored | RaisedLost

  datatype Op = Emit(em: Emission) | Flush(outcomes: seq<Outcome>)

  datatype Call = Call(callId: string, tenantId: string, flowId: string, flowVersion: int)

  datatype Session = Session(call: Call, seqNo: nat, emitted: seq<Envelope>, flushed: nat, stored: seq<Envelope>)

  function Opened(call: Call): Session { Session(call, 0, [], 0, []) }

  function Sealed(call: Call, seqNo: nat, em: Emission): Envelope
    requires em.Valid?
  {
    Envelope(em.eventId, call.callId, seqNo, em.ts, call.tenantId, call.flowId, call.flowVersion,
             em.nodeId, em.body, em.redactions)
  }

  /** The number is taken before the envelope is validated. */
  function Emitted(s: Session, em: Emission): Session {
    match em
    case Partial => s
    case Invalid => s.(seqNo := s.seqNo + 1)
    case Valid(_, _, _, _, _) =>
      s.(seqNo := s.seqNo + 1, emitted := s.emitted + [Sealed(s.call, s.seqNo + 1, em)])
  }

  function OutcomeAt(outcomes: seq<Outcome>, i: nat): Outcome {
    if i < |outcomes| then outcomes[i] else Acked
  }

  datatype Published = Published(stored: seq<Envelope>, ok: bool)

  /** Publishing `pending[i..]` in order, up to the first failure. */
  function Publish(pending: seq<Envelope>, i: nat, outcomes: seq<Outcome>, stored: seq<Envelope>): Published
    requires i <= |pending|
    decreases |pending| - i
  {
    if i == |pending| then Published(stored, true)
    else
      match OutcomeAt(outcomes, i)
      case Acked => Publish(pending, i + 1, outcomes, stored + [pending[i]])
      case RaisedStored => Published(stored + [pending[i]], false)
      case RaisedLost => Published(stored, false)
  }

  ghost predicate Ready(s: Session) { s.flushed <= |s.emitted| }

  function Flushed(s: Session, outcomes: seq<Outcome>): Session
    requires Ready(s)
  {
    var r := Publish(s.emitted[s.flushed..], 0, outcomes, s.stored);
    s.(stored := r.stored, flushed := if r.ok then |s.emitted| else s.flushed)
  }

  function FlushSucceeds(s: Session, outcomes: seq<Outcome>): bool
    requires Ready(s)
  {
    Publish(s.emitted[s.flushed..], 0, outcomes, s.stored).ok
  }

  function Step(s: Session, op: Op): (r: Session)
    requires Ready(s)
    ensures Ready(r)
  {
    match op
    case Emit(em) => Emitted(s, em)
    case Flush(outcomes) => Flushed(s, outcomes)
  }

  function Run(call: Call, ops: seq<Op>): (r: Session)
    ensures Ready(r)
  {
    if ops == [] then Opened(call) else Step(Run(call, ops[..|ops| - 1]), ops[|ops| - 1])
  }

  // --- numbering

  ghost predicate Numbering(s: Session) {
    && Rising(s.emitted) && Numbered(s.emitted) && LastApplied(s.emitted) <= s.seqNo
    && forall i :: 0 <= i < |s.emitted| ==> i < s.emitted[i].seqNo
  }

  lemma {:induction false} RunNumbers(call: Call, ops: seq<Op>)
    ensures Numbering(Run(call, ops))
  {
    if ops != [] {
      var s := Run(call, ops[..|ops| - 1]);
      RunNumbers(call, ops[..|ops| - 1]);
      hide Numbering, Publish;
      match ops[|ops| - 1]
      case Emit(em) => EmitNumbers(s, em);
      case Flush(outcomes) => FlushNumbers(s, outcomes);
    }
  }

  lemma FlushNumbers(s: Session, outcomes: seq<Outcome>)
    requires Numbering(s) && Ready(s)
    ensures Numbering(Flushed(s, outcomes))
  {
    hide Publish, Rising, Numbered;
  }

  lemma EmitNumbers(s: Session, em: Emission)
    requires Numbering(s)
    ensures Numbering(Emitted(s, em))
  {
    if em.Valid? {
      var e := s.emitted + [Sealed(s.call, s.seqNo + 1, em)];
      RisingBelowLast(s.emitted);
      assert Rising(e);
      hide Rising, LastApplied;
      assert LastApplied(e) == s.seqNo + 1 by { LastOf(s.emitted, Sealed(s.call, s.seqNo + 1, em)); }
      forall x | x in e ensures x.seqNo >= 1 {}
    } else {
      hide Rising, Numbered;
    }
  }

  lemma LastOf(k: seq<Envelope>, e: Envelope)
    ensures LastApplied(k + [e]) == e.seqNo
  {}

  lemma RisingBelowLast(k: seq<Envelope>)
    requires Rising(k)
    ensures forall i :: 0 <= i < |k| ==> k[i].seqNo <= LastApplied(k)
  {}

  ghost predicate Gapless(evs: seq<Envelope>) {
    forall i :: 0 <= i < |evs| ==> evs[i].seqNo == i + 1
  }

  ghost predicate Rejects(ops: seq<Op>, i: int) { 0 <= i < |ops| && ops[i].Emit? && ops[i].em.Invalid? }

  ghost predicate Emits(ops: seq<Op>, i: int) { 0 <= i < |ops| && ops[i].Emit? && ops[i].em.Valid? }

  /** No valid emission follows a rejected one. */
  ghost predicate RejectsOnlyLast(ops: seq<Op>) {
    forall i, j :: Rejects(ops, i) && Emits(ops, j) ==> j < i
  }

  lemma {:induction false} SeqCountsEmissions(call: Call, ops: seq<Op>)
    ensures (exists i :: Rejects(ops, i)) <==> Run(call, ops).seqNo != |Run(call, ops).emitted|
    ensures |Run(call, ops).emitted| <= Run(call, ops).seqNo
  {
    if ops != [] {
      var u := ops[..|ops| - 1];
      SeqCountsEmissions(call, u);
      forall i ensures Rejects(u, i) <==> Rejects(ops, i) && i < |u| {}
      assert Rejects(ops, |u|) <==> ops[|u|] == Emit(Invalid);
      if i :| Rejects(u, i) {
        assert Rejects(ops, i);
      }
    }
  }

  /** The numbers are 1, 2, 3, … without a gap exactly when no event was emitted after a
      rejected payload: a payload the contract rejects uses its number up. */
  lemma {:induction false} GaplessIffNoneRejectedBefore(call: Call, ops: seq<Op>)
    ensures Gapless(Run(call, ops).emitted) <==> RejectsOnlyLast(ops)
  {
    if ops != [] {
      var u, n := ops[..|ops| - 1], |ops| - 1;
      var s, t := Run(call, u), Run(call, ops);
      GaplessIffNoneRejectedBefore(call, u);
      SeqCountsEmissions(call, u);
      forall i ensures Rejects(u, i) <==> Rejects(ops, i) && i < n {}
      forall i ensures Emits(u, i) <==> Emits(ops, i) && i < n {}
      if Emits(ops, n) {
        assert t.emitted[..|s.emitted|] == s.emitted;
        assert Gapless(t.emitted) <==> Gapless(s.emitted) && s.seqNo == |s.emitted| by {
          assert t.emitted[|s.emitted|].seqNo == s.seqNo + 1;
          if Gapless(t.emitted) {
            forall i | 0 <= i < |s.emitted| ensures s.emitted[i].seqNo == i + 1 {
              assert t.emitted[i] == s.emitted[i];
            }
          }
        }
        if i :| Rejects(u, i) {
          assert Rejects(ops, i) && Emits(ops, n);
        }
        if s.seqNo == |s.emitted| {
          assert forall i :: !Rejects(ops, i);
        }
      } else {
        assert t.emitted == s.emitted;
        if RejectsOnlyLast(u) {
          forall i, j | Rejects(ops, i) && Emits(ops, j) ensures j < i {
            assert Emits(u, j);
            assert i < n ==> Rejects(u, i);
          }
        }
      }
    }
  }

  /** So the first event of a call can have number 2. */
  lemma RejectedFirstLeavesGap(call: Call, em: Emission)
    requires em.Valid?
    ensures var s := Run(call, [Emit(Invalid), Emit(em)]);
            |s.emitted| == 1 && s.emitted[0].seqNo == 2
  {
    var a, b := Emit(Invalid), Emit(em);
    assert [a, b][..1] == [a] && [a][..0] == [];
    assert Run(call, [a]) == Emitted(Opened(call), Invalid);
    assert Run(call, [a, b]) == Emitted(Run(call, [a]), em);
  }

  // --- what the bus holds

  /** The bus holds exactly the first `k` emitted events, some of them more than once. */
  ghost predicate HoldsPrefix(s: Session, k: nat) {
    && s.flushed <= k <= |s.emitted|
    && forall e :: e in s.stored <==> e in s.emitted[..k]
  }

  /** How far a flush that starts at `i` gets. */
  function Reach(n: nat, i: nat, outcomes: seq<Outcome>): (k: nat)
    requires i <= n
    ensures i <= k <= n
    decreases n - i
  {
    if i == n then n
    else
      match OutcomeAt(outcomes, i)
      case Acked => Reach(n, i + 1, outcomes)
      case RaisedStored => i + 1
      case RaisedLost => i
  }

  lemma {:induction false} PublishStores(pending: seq<Envelope>, i: nat, outcomes: seq<Outcome>, stored: seq<Envelope>)
    requires i <= |pending|
    ensures var r := Publish(pending, i, outcomes, stored);
            && (forall e :: e in r.stored <==> e in stored || e in pending[i..Reach(|pending|, i, outcomes)])
            && (r.ok ==> Reach(|pending|, i, outcomes) == |pending|)
    decreases |pending| - i
  {
    if i == |pending| {
    } else if OutcomeAt(outcomes, i).RaisedStored? {
      assert pending[i..i + 1] == [pending[i]];
    } else if OutcomeAt(outcomes, i).Acked? {
      var k := Reach(|pending|, i + 1, outcomes);
      PublishStores(pending, i + 1, outcomes, stored + [pending[i]]);
      assert pending[i..k] == [pending[i]] + pending[i + 1..k];
      assert forall e :: e in pending[i..k] <==> e in [pending[i]] || e in pending[i + 1..k];
    } else {
      assert pending[i..i] == [];
    }
  }

  lemma {:induction false} BusHoldsPrefix(call: Call, ops: seq<Op>) returns (k: nat)
    ensures HoldsPrefix(Run(call, ops), k)
  {
    if ops == [] {
      k := 0;
    } else {
      var s, op := Run(call, ops[..|ops| - 1]), ops[|ops| - 1];
      k := BusHoldsPrefix(call, ops[..|ops| - 1]);
      match op
      case Emit(em) => assert Emitted(s, em).emitted[..k] == s.emitted[..k];
      case Flush(outcomes) =>
        var pending := s.emitted[s.flushed..];
        var m := s.flushed + Reach(|pending|, 0, outcomes);
        PublishStores(pending, 0, outcomes, s.stored);
        assert pending[0..m - s.flushed] == s.emitted[s.flushed..m];
        PrefixUnion(s.emitted, s.flushed, k, m);
        k := Max(k, m);
    }
  }

  lemma PrefixUnion(evs: seq<Envelope>, a: nat, k: nat, m: nat)
    requires a <= k <= |evs| && a <= m <= |evs|
    ensures forall e :: e in evs[..Max(k, m)] <==> e in evs[..k] || e in evs[a..m]
  {
    forall e ensures e in evs[..Max(k, m)] <==> e in evs[..k] || e in evs[a..m] {
      if e in evs[..Max(k, m)] {
        var i :| 0 <= i < Max(k, m) && evs[i] == e;
        assert i < k ==> evs[..k][i] == e;
        assert i >= k ==> evs[a..m][i - a] == e;
      }
    }
  }

  lemma {:induction false} EmittedBelong(call: Call, ops: seq<Op>)
    ensures forall e :: e in Run(call, ops).emitted ==> e.callId == call.callId
    ensures Run(call, ops).call == call
  {
    if ops != [] {
      EmittedBelong(call, ops[..|ops| - 1]);
    }
  }

  /** Everything on the bus was emitted, under the call's own id. */
  lemma StoredBelongs(call: Call, ops: seq<Op>, e: Envelope)
    requires e in Run(call, ops).stored
    ensures e in Run(call, ops).emitted && e.callId == call.callId
  {
    EmittedBelong(call, ops);
    var k := BusHoldsPrefix(call, ops);
    assert e in Run(call, ops).emitted[..k];
  }

  lemma StoredWhenFlushed(call: Call, ops: seq<Op>, e: Envelope)
    requires Run(call, ops).flushed == |Run(call, ops).emitted| && e in Run(call, ops).emitted
    ensures e in Run(call, ops).stored && e.callId == call.callId
  {
    EmittedBelong(call, ops);
    var k := BusHoldsPrefix(call, ops);
    assert Run(call, ops).emitted[..k] == Run(call, ops).emitted;
  }

  // --- end to end

  lemma RisingIdentifies(k: seq<Envelope>)
    requires Rising(k)
    ensures Identified(k)
  {
    forall a, b | a in k && b in k && a.seqNo == b.seqNo ensures a == b {
      var i :| 0 <= i < |k| && k[i] == a;
      var j :| 0 <= j < |k| && k[j] == b;
      assert i < j ==> k[i].seqNo < k[j].seqNo;
      assert j < i ==> k[j].seqNo < k[i].seqNo;
    }
  }

  /** Any delivery of the events of a rising list folds to the list applied in order. */
  lemma DeliveryFoldsInOrder(k: seq<Envelope>, delivery: seq<Envelope>)
    requires Rising(k) && Numbered(k) && forall e :: e in delivery <==> e in k
    ensures Fold(delivery) == ApplyAll(k)
  {
    RisingIdentifies(k);
    assert Identified(delivery) && Numbered(delivery);
    forall e ensures e in k <==> First(delivery, e) {
      if e in k {
        forall f | f in delivery && f.seqNo == e.seqNo ensures e.eventId <= f.eventId {
          assert f in k && f == e;
        }
      }
    }
    FoldIsInOrderApplication(delivery, k);
  }

  /** At any moment, after any failures, every duplicated and reordered delivery of what the
      bus holds folds to the in-order application of a prefix of the emitted events. */
  lemma AnyDeliveryFoldsToPrefix(call: Call, ops: seq<Op>, delivery: seq<Envelope>) returns (k: nat)
    requires forall e :: e in delivery <==> e in Run(call, ops).stored
    ensures Run(call, ops).flushed <= k <= |Run(call, ops).emitted|
    ensures Fold(delivery) == ApplyAll(Run(call, ops).emitted[..k])
  {
    var s := Run(call, ops);
    k := BusHoldsPrefix(call, ops);
    RunNumbers(call, ops);
    forall e | e in s.emitted[..k] ensures e in s.emitted {}
    DeliveryFoldsInOrder(s.emitted[..k], delivery);
  }

  /** Once a flush succeeds, every duplicated and reordered delivery of what the bus holds
      folds to the in-order application of all events emitted so far, whatever failed before. */
  lemma FlushedDeliveryFoldsToHistory(call: Call, ops: seq<Op>, outcomes: seq<Outcome>, delivery: seq<Envelope>)
    requires FlushSucceeds(Run(call, ops), outcomes)
    requires forall e :: e in delivery <==> e in Run(call, ops + [Flush(outcomes)]).stored
    ensures Fold(delivery) == ApplyAll(Run(call, ops).emitted)
  {
    var all := ops + [Flush(outcomes)];
    var k := AnyDeliveryFoldsToPrefix(call, all, delivery);
    FlushKeeps(call, ops, outcomes);
    hide Run, Fold, ApplyAll, FlushSucceeds;
    assert Run(call, all).emitted[..k] == Run(call, ops).emitted;
  }

  lemma FlushKeeps(call: Call, ops: seq<Op>, outcomes: seq<Outcome>)
    requires FlushSucceeds(Run(call, ops), outcomes)
    ensures var r := Run(call, ops + [Flush(outcomes)]);
            r.emitted == Run(call, ops).emitted && r.flushed == |r.emitted|
  {
    hide Publish;
    assert (ops + [Flush(outcomes)])[..|ops|] == ops;
  }

  // --- the objects

  class EventEmitter {
    const call: Call
    var seqNo: nat
    var emitted: seq<Envelope>

    constructor (call: Call)
      ensures this.call == call && seqNo == 0 && emitted == []
    {
      this.call := call;
      seqNo, emitted := 0, [];
    }

    /** `None` is the exception of a partial or of a rejected payload. */
    method EmitOne(em: Emission) returns (envelope: Option<Envelope>)
      modifies this
      ensures var before := Session(call, old(seqNo), old(emitted), 0, []);
              Session(call, seqNo, emitted, 0, []) == Emitted(before, em)
      ensures envelope.Some? <==> em.Valid?
      ensures em.Valid? ==> emitted == old(emitted) + [envelope.value]
    {
      if em.Partial? {
        return None;
      }
      seqNo := seqNo + 1;
      if em.Invalid? {
        return None;
      }
      var e := Sealed(call, seqNo, em);
      emitted := emitted + [e];
      return Some(e);
    }
  }

  class Bus {
    var stored: seq<Envelope>

    constructor ()
      ensures stored == []
    {
      stored := [];
    }

    method PublishOne(e: Envelope, o: Outcome) returns (ok: bool)
      modifies this
      ensures stored == (if o.RaisedLost? then old(stored) else old(stored) + [e])
      ensures ok == o.Acked?
    {
      if !o.RaisedLost? {
        stored := stored + [e];
      }
      return o.Acked?;
    }
  }

  class CallSession {
    const emitter: EventEmitter
    const publisher: Bus
    var flushed: nat

    ghost function View(): Session
      reads this, emitter, publisher
    {
      Session(emitter.call, emitter.seqNo, emitter.emitted, flushed, publisher.stored)
    }

    constructor (emitter: EventEmitter, publisher: Bus)
      ensures this.emitter == emitter && this.publisher == publisher && flushed == 0
    {
      this.emitter, this.publisher, flushed := emitter, publisher, 0;
    }

    method FlushEvents(outcomes: seq<Outcome>) returns (ok: bool)
      requires Ready(View())
      modifies this, publisher
      ensures View() == Flushed(old(View()), outcomes) && ok == FlushSucceeds(old(View()), outcomes)
    {
      var pending := emitter.emitted[flushed..];
      for i := 0 to |pending|
        invariant flushed == old(flushed)
        invariant Publish(pending, i, outcomes, publisher.stored)
               == Publish(pending, 0, outcomes, old(publisher.stored))
      {
        var sent := publisher.PublishOne(pending[i], OutcomeAt(outcomes, i));
        if !sent {
          return false;
        }
      }
      flushed := flushed + |pending|;
      return true;
    }
  }
}
