/** The business-event envelope and its typed payloads. */
module Events {
  import opened Common

  /** A decoded JSON value as far as the consumers look: a string, or anything else. */
  datatype Json = JString(text: string) | JOther(id: int)

  datatype Redaction = Redaction(start: int, end: int, kind: string, vault: string)

  /** The payload by event type. `Malformed` is an event of a type whose payload the fold
      decodes, with a payload that does not decode; a call.started payload is decoded only by
      the notifier, so its caller is optional instead. */
  datatype Body =
    | CallStarted(caller: Option<string>)
    | CallAnswered
    | CallEnded(reason: string, durationMs: int)
    | ConsentCaptured(granted: bool)
    | LanguageDetected(locale: string)
    | LanguageSwitched(locale: string)
    | NodeEntered
    | NodeExited
    | SttFinal(text: string, audioMs: int)
    | AgentTurnCompleted(text: string, interrupted: bool, perceivedMs: int,
                         tokensIn: int, tokensOut: int, ttsChars: int)
    | ToolOrDtmf
    | VarAssigned(name: string, value: Json)
    | TransferInitiated
    | TransferAnswered
    | RecordingStarted
    | ErrorRaised(stage: string)
    | UnknownType
    | Malformed

  /** EventIDs are ULIDs; only their order and identity matter. */
  datatype Envelope = Envelope(eventId: nat, callId: string, seqNo: nat, ts: int, tenantId: string,
                               flowId: string, flowVersion: int, nodeId: string, body: Body,
                               redactions: seq<Redaction>)
}
