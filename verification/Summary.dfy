/** The post-call digest the notifications are rendered from. Time stamps are integers, 0 the
    zero time; `parse` stands for the RFC 3339 parser. */
module Summary {
  import opened Common
  import opened Events
  import opened EventFold

  datatype Outcome = Booked | TookMessage | HandedOver | Nothing

  datatype Summary = Summary(callId: string, tenantId: string, locale: string, endedAt: int,
                             callerPhone: string, callerName: string, service: string, urgency: string,
                             callbackPhone: string, outcome: Outcome, appointmentAt: int, message: string)

  datatype Built = Ok(sum: Summary) | FoldFailed(seqNo: nat) | BadAppointment(raw: string)

  function StringVar(vars: map<string, Json>, name: string): string {
    if name in vars && vars[name].JString? then vars[name].text else ""
  }

  /** The number of the first call.started to arrive, empty when it does not decode. */
  function FirstCaller(events: seq<Envelope>): string {
    if events == [] then ""
    else if events[0].body.CallStarted? then events[0].body.caller.UnwrapOr("")
    else FirstCaller(events[1..])
  }

  function Decide(endReason: string, appointmentAt: int, message: string): Outcome {
    if endReason == "transferred" then HandedOver
    else if appointmentAt != 0 then Booked
    else if message != "" then TookMessage
    else Nothing
  }

  function BuildSummary(events: seq<Envelope>, parse: string -> Option<int>): Built {
    var folded := Fold(events);
    if folded.Err? then FoldFailed(folded.seqNo)
    else
      var s, caller := folded.snap, FirstCaller(events);
      var vars := s.course.vars;
      var callback, raw := StringVar(vars, "callback_phone"), StringVar(vars, "appointment_at");
      var message := StringVar(vars, "message");
      if raw != "" && parse(raw).None? then BadAppointment(raw)
      else
        var at := if raw == "" then 0 else parse(raw).value;
        Built.Ok(Summary(s.id.callId, s.id.tenantId, s.course.locale, s.life.endedAt, caller,
                   StringVar(vars, "caller_name"), StringVar(vars, "service"), StringVar(vars, "urgency"),
                   if callback == "" then caller else callback, Decide(s.life.endReason, at, message), at, message))
  }

  /** The scan for the caller's number stops at the first call.started, decodable or not. */
  method FindCaller(events: seq<Envelope>) returns (phone: string)
    ensures phone == FirstCaller(events)
  {
    phone := "";
    var i := 0;
    while i < |events|
      invariant 0 <= i <= |events|
      invariant phone == "" && FirstCaller(events) == FirstCaller(events[i..])
    {
      if events[i].body.CallStarted? {
        if events[i].body.caller.Some? {
          phone := events[i].body.caller.value;
        }
        break;
      }
      i := i + 1;
    }
  }

  ghost predicate FirstStarted(events: seq<Envelope>, i: int) {
    && 0 <= i < |events| && events[i].body.CallStarted?
    && forall j :: 0 <= j < i ==> !events[j].body.CallStarted?
  }

  lemma {:induction false} FirstCallerIsFirstArrival(events: seq<Envelope>)
    ensures forall i :: FirstStarted(events, i) ==> FirstCaller(events) == events[i].body.caller.UnwrapOr("")
    ensures (forall e :: e in events ==> !e.body.CallStarted?) ==> FirstCaller(events) == ""
  {
    if events != [] && !events[0].body.CallStarted? {
      FirstCallerIsFirstArrival(events[1..]);
      forall i | FirstStarted(events, i) ensures FirstCaller(events) == events[i].body.caller.UnwrapOr("") {
        assert i > 0 && FirstStarted(events[1..], i - 1) by {
          forall j | 0 <= j < i - 1 ensures !events[1..][j].body.CallStarted? {
            assert events[1..][j] == events[j + 1];
          }
        }
      }
    }
  }

  lemma {:induction false} SomeFirstStarted(events: seq<Envelope>, e: Envelope) returns (i: int)
    requires e in events && e.body.CallStarted?
    ensures FirstStarted(events, i)
  {
    if events[0].body.CallStarted? {
      i := 0;
    } else {
      i := SomeFirstStarted(events[1..], e);
      i := i + 1;
      forall j | 0 <= j < i ensures !events[j].body.CallStarted? {
        if j > 0 { assert events[j] == events[1..][j - 1]; }
      }
    }
  }

  /** A redelivered, reordered stream gives the same digest: it depends on the set of events
      alone, provided the stream holds a single call.started. */
  lemma SummaryDependsOnlyOnSet(s1: seq<Envelope>, s2: seq<Envelope>, parse: string -> Option<int>)
    requires forall e :: e in s1 <==> e in s2
    requires Numbered(s1) && Identified(s1)
    requires forall a, b | a in s1 && b in s1 && a.body.CallStarted? && b.body.CallStarted? :: a == b
    ensures BuildSummary(s1, parse) == BuildSummary(s2, parse)
  {
    FoldDependsOnlyOnSet(s1, s2);
    SameFirstCaller(s1, s2);
    hide Fold, FirstCaller;
  }

  lemma SameFirstCaller(s1: seq<Envelope>, s2: seq<Envelope>)
    requires forall e :: e in s1 <==> e in s2
    requires forall a, b | a in s1 && b in s1 && a.body.CallStarted? && b.body.CallStarted? :: a == b
    ensures FirstCaller(s1) == FirstCaller(s2)
  {
    FirstCallerIsFirstArrival(s1);
    FirstCallerIsFirstArrival(s2);
    hide FirstCaller;
    if e :| e in s1 && e.body.CallStarted? {
      var i := SomeFirstStarted(s1, e);
      var j := SomeFirstStarted(s2, e);
      assert s1[i] in s1 && s2[j] in s2;
      assert s1[i] == s2[j];
    }
  }

  /** A booking is reported only when the last value written to the appointment variable is a
      string that parses to a real moment, and the call was not transferred. */
  lemma BookedMeansLastWrite(events: seq<Envelope>, parse: string -> Option<int>)
    requires BuildSummary(events, parse).Ok?
    ensures var k, sum := Kept(SortStable(events)), BuildSummary(events, parse).sum;
            sum.outcome.Booked? <==>
              && ApplyAll(k).snap.life.endReason != "transferred"
              && exists i :: LastWriter(k, "appointment_at", i) && NamesMoment(k[i].body.value, parse)
  {
    VarsAreLastWritten(Kept(SortStable(events)), "appointment_at");
    hide Fold, ApplyAll;
  }

  predicate NamesMoment(value: Json, parse: string -> Option<int>) {
    value.JString? && value.text != "" && parse(value.text).Some? && parse(value.text).value != 0
  }
}
