/** The webhook handlers of the call-masking relay and the in-memory
    registry of call sessions they share. */
module Relay {
  import opened Wrappers
  import opened Json
  import opened Text
  import opened Config
  import opened Http

  /** A webhook body after `json.loads`: a decoded value, or the reason
      decoding failed (bad JSON, or bytes that are not valid UTF-8). */
  datatype Decoded = Parsed(json: Json) | InvalidJson(reason: string) | InvalidEncoding(reason: string)

  /** The record kept for one call session.  The first five fields are set
      when the action webhook bridges the call; the rest appear only once a
      status webhook has merged them in (None: key absent from the dict). */
  datatype Session = Session(
    caller: Json,
    virtualNumber: Json,
    forwardedNumber: string,
    status: Json,
    callId: Json,
    eventType: Option<Json>,
    lastUpdate: Option<Json>,
    sessionStatus: Option<Json>,
    lastVssUpdate: Option<Json>)

  /** The fields the action webhook reads from its body. */
  datatype ActionEvent = ActionEvent(
    eventType: Json, callStatus: Json, sessionId: Json, source: Json, destination: Json, callId: Json)

  /** Reads the action event from a decoded body; fails with the text of the
      AttributeError Python raises when the body, or its `payload`, is not a
      dict.  A missing `payload` reads as an empty dict. */
  function ReadActionEvent(raw: Json): (r: Result<ActionEvent>)
    ensures r.Success? <==> raw.JObj? && Get(raw.fields, "payload", JObj(map[])).JObj?
    ensures r.Success? ==> r.value.eventType == Get(raw.fields, "eventType", JNull)
  {
    if !raw.JObj? then Failure(NoAttributeMessage(raw, "get"))
    else
      var payload := Get(raw.fields, "payload", JObj(map[]));
      if !payload.JObj? then Failure(NoAttributeMessage(payload, "get"))
      else
        var p := payload.fields;
        Success(ActionEvent(
          Get(raw.fields, "eventType", JNull),
          Get(p, "callStatus", JNull),
          Get(p, "sessionId", JNull),
          Get(p, "source", JNull),
          Get(p, "destination", JNull),
          Get(p, "callId", JNull)))
  }

  /** The event announces a new inbound call: only these are acted upon. */
  predicate IsNewInboundCall(ev: ActionEvent) {
    ev.eventType == JStr("CALL_ACTION") && ev.callStatus == JStr("CALL_RECEIVED") && Truthy(ev.sessionId)
  }

  /** The record stored for a call that is being bridged. */
  function BridgingSession(ev: ActionEvent, forwarded: string): Session {
    Session(ev.source, ev.destination, forwarded, JStr("bridging"), ev.callId, None, None, None, None)
  }

  /** The 500 answer of the action webhook for an exception with text `msg`. */
  function ActionFailed(msg: string): Response {
    Response(500, ErrorReport("Error processing VCA webhook: " + msg))
  }

  /** The response of a successful bridge: one `makeCall` from the virtual
      number to the forwarded number, both without their leading `+`. */
  function BridgeResponse(virtualNumber: string, forwarded: string): (r: Response)
    ensures r.code == 200 && r.body.Callflow? && |r.body.callflow| == 1
    ensures var call := r.body.callflow[0];
      && (call.source == [] || call.source[0] != '+')
      && (call.destination == [] || call.destination[0] != '+')
      && (exists k: nat :: k <= |virtualNumber| && virtualNumber == Repeat('+', k) + call.source)
      && (exists k: nat :: k <= |forwarded| && forwarded == Repeat('+', k) + call.destination)
  {
    var source := LStrip(virtualNumber, '+');
    var destination := LStrip(forwarded, '+');
    LStripSplit(virtualNumber, '+');
    LStripSplit(forwarded, '+');
    Response(200, Callflow([MakeCall(source, destination)]))
  }

  /** The fields a status webhook merges into a known session. */
  datatype StatusEvent = StatusEvent(key: Key, eventType: Json, payload: map<string, Json>)

  /** Reads a status event from a decoded body.  None covers every body for
      which the status webhooks change nothing before the registry lookup:
      an empty body or one without `eventType`, a body or `payload` that is
      not a dict (Python raises, and the handler's `except` acknowledges), a
      falsy `sessionId`, and a `sessionId` that cannot be a dict key. */
  function ReadStatusEvent(raw: Json): (r: Option<StatusEvent>)
    ensures !Truthy(raw) || !raw.JObj? || "eventType" !in raw.fields ==> r.None?
    ensures r.Some? ==>
      && raw.JObj? && r.value.eventType == raw.fields["eventType"]
      && Get(raw.fields, "payload", JObj(map[])) == JObj(r.value.payload)
      && Truthy(Get(r.value.payload, "sessionId", JNull))
      && HashKey(Get(r.value.payload, "sessionId", JNull)) == Some(r.value.key)
    ensures raw.JObj? && "eventType" in raw.fields ==>
      var payload := Get(raw.fields, "payload", JObj(map[]));
      payload.JObj? ==>
        var sessionId := Get(payload.fields, "sessionId", JNull);
        Truthy(sessionId) && HashKey(sessionId).Some? ==>
          r == Some(StatusEvent(HashKey(sessionId).value, raw.fields["eventType"], payload.fields))
  {
    if !Truthy(raw) || !raw.JObj? || "eventType" !in raw.fields then None
    else
      var payload := Get(raw.fields, "payload", JObj(map[]));
      if !payload.JObj? then None
      else
        var sessionId := Get(payload.fields, "sessionId", JNull);
        if !Truthy(sessionId) then None
        else
          match HashKey(sessionId)
          case None => None
          case Some(k) => Some(StatusEvent(k, raw.fields["eventType"], payload.fields))
  }

  /** A session after a call-status event: the call status, event type, call
      id and payload snapshot are replaced, every other field is kept. */
  function WithCallStatus(s: Session, ev: StatusEvent): (r: Session)
    ensures r.status == Get(ev.payload, "callStatus", JNull) && r.callId == Get(ev.payload, "callId", JNull)
    ensures r.eventType == Some(ev.eventType) && r.lastUpdate == Some(JObj(ev.payload))
    ensures r.caller == s.caller && r.virtualNumber == s.virtualNumber && r.forwardedNumber == s.forwardedNumber
    ensures r.sessionStatus == s.sessionStatus && r.lastVssUpdate == s.lastVssUpdate
  {
    s.(status := Get(ev.payload, "callStatus", JNull),
       eventType := Some(ev.eventType),
       callId := Get(ev.payload, "callId", JNull),
       lastUpdate := Some(JObj(ev.payload)))
  }

  /** A session after a session-status event: the session status, event type
      and payload snapshot are replaced; the call status and call id, like
      every other field, are kept. */
  function WithSessionStatus(s: Session, ev: StatusEvent): (r: Session)
    ensures r.sessionStatus == Some(Get(ev.payload, "sessionStatus", JNull))
    ensures r.eventType == Some(ev.eventType) && r.lastVssUpdate == Some(JObj(ev.payload))
    ensures r.status == s.status && r.callId == s.callId && r.lastUpdate == s.lastUpdate
    ensures r.caller == s.caller && r.virtualNumber == s.virtualNumber && r.forwardedNumber == s.forwardedNumber
  {
    s.(sessionStatus := Some(Get(ev.payload, "sessionStatus", JNull)),
       eventType := Some(ev.eventType),
       lastVssUpdate := Some(JObj(ev.payload)))
  }

  /** Builds, one `append` at a time, the list of missing items the action
      webhook reports. */
  method CollectMissing(env: Env, virtualNumber: Json) returns (missing: seq<string>)
    ensures missing == ActionMissing(env, virtualNumber)
  {
    missing := [];
    if !IsSet(env, ApiKeyVar) { missing := missing + [ApiKeyVar]; }
    if !IsSet(env, SubaccountVar) { missing := missing + [SubaccountVar]; }
    if !IsSet(env, ForwardedVar) { missing := missing + [ForwardedVar]; }
    if !Truthy(virtualNumber) { missing := missing + [VirtualNumberItem]; }
    MissingRequiredInOrder(env);
  }

  /** The registry of active call sessions, keyed by session id. */
  class CallRegistry {
    var activeCalls: map<Key, Session>

    constructor ()
      ensures activeCalls == map[]
    {
      activeCalls := map[];
    }

    /** The action webhook: bridges a new inbound call to the forwarded number
        behind the virtual number, and records the session. */
    method VoiceCallAction(request: Decoded, env: Env) returns (r: Response)
      modifies this
      ensures request.InvalidJson? ==>
        r == Response(400, ErrorReport("Invalid JSON in webhook payload: " + request.reason))
        && activeCalls == old(activeCalls)
      ensures request.InvalidEncoding? ==> r == ActionFailed(request.reason) && activeCalls == old(activeCalls)
      ensures request.Parsed? && ReadActionEvent(request.json).Failure? ==>
        r == ActionFailed(ReadActionEvent(request.json).error) && activeCalls == old(activeCalls)
      ensures request.Parsed? && ReadActionEvent(request.json).Success? ==>
        var ev := ReadActionEvent(request.json).value;
        var missing := ActionMissing(env, ev.destination);
        var key := HashKey(ev.sessionId);
        && (!IsNewInboundCall(ev) ==> r == Ignored && activeCalls == old(activeCalls))
        && (IsNewInboundCall(ev) && missing != [] ==>
              r == ActionFailed("Missing required configuration: " + Join(missing, ", "))
              && activeCalls == old(activeCalls))
        && (IsNewInboundCall(ev) && missing == [] && key.None? ==>
              r == ActionFailed(UnhashableMessage(ev.sessionId)) && activeCalls == old(activeCalls))
        && (IsNewInboundCall(ev) && missing == [] && key.Some? ==>
              activeCalls == old(activeCalls)[key.value := BridgingSession(ev, env[ForwardedVar])]
              && r == if ev.destination.JStr?
                      then BridgeResponse(ev.destination.s, env[ForwardedVar])
                      else ActionFailed(NoAttributeMessage(ev.destination, "lstrip")))
    {
      if request.InvalidJson? {
        return Response(400, ErrorReport("Invalid JSON in webhook payload: " + request.reason));
      } else if request.InvalidEncoding? {
        return ActionFailed(request.reason);
      }
      var read := ReadActionEvent(request.json);
      if read.Failure? {
        return ActionFailed(read.error);
      }
      var ev := read.value;
      if !IsNewInboundCall(ev) {
        return Ignored;
      }
      var virtualNumber := ev.destination;
      if !(IsSet(env, ApiKeyVar) && IsSet(env, SubaccountVar) && IsSet(env, ForwardedVar) && Truthy(virtualNumber)) {
        var missing := CollectMissing(env, virtualNumber);
        return ActionFailed("Missing required configuration: " + Join(missing, ", "));
      }
      var forwarded := env[ForwardedVar];
      var key := HashKey(ev.sessionId);
      if key.None? {
        return ActionFailed(UnhashableMessage(ev.sessionId));
      }
      // The record is stored before the numbers are normalised, so it keeps the `+`.
      activeCalls := activeCalls[key.value := BridgingSession(ev, forwarded)];
      if !virtualNumber.JStr? {
        return ActionFailed(NoAttributeMessage(virtualNumber, "lstrip"));
      }
      r := BridgeResponse(virtualNumber.s, forwarded);
    }

    /** The call-status webhook: merges the call status into a known session.
        Acknowledges every decodable body; never creates a session. */
    method VoiceCallStatus(request: Decoded) returns (r: Response)
      modifies this
      ensures !request.Parsed? ==> r == Uncaught
      ensures request.Parsed? ==> r == Acknowledged
      ensures activeCalls.Keys == old(activeCalls).Keys
      ensures var ev := if request.Parsed? then ReadStatusEvent(request.json) else None;
        if ev.Some? && ev.value.key in old(activeCalls)
        then activeCalls == old(activeCalls)[ev.value.key := WithCallStatus(old(activeCalls)[ev.value.key], ev.value)]
        else activeCalls == old(activeCalls)
    {
      if !request.Parsed? {
        return Uncaught;
      }
      var ev := ReadStatusEvent(request.json);
      if ev.Some? && ev.value.key in activeCalls {
        activeCalls := activeCalls[ev.value.key := WithCallStatus(activeCalls[ev.value.key], ev.value)];
      }
      r := Acknowledged;
    }

    /** The session-status webhook: merges the session status into a known
        session.  Acknowledges every decodable body; never creates a session. */
    method VoiceSessionStatus(request: Decoded) returns (r: Response)
      modifies this
      ensures !request.Parsed? ==> r == Uncaught
      ensures request.Parsed? ==> r == Acknowledged
      ensures activeCalls.Keys == old(activeCalls).Keys
      ensures var ev := if request.Parsed? then ReadStatusEvent(request.json) else None;
        if ev.Some? && ev.value.key in old(activeCalls)
        then activeCalls == old(activeCalls)[ev.value.key := WithSessionStatus(old(activeCalls)[ev.value.key], ev.value)]
        else activeCalls == old(activeCalls)
    {
      if !request.Parsed? {
        return Uncaught;
      }
      var ev := ReadStatusEvent(request.json);
      if ev.Some? && ev.value.key in activeCalls {
        activeCalls := activeCalls[ev.value.key := WithSessionStatus(activeCalls[ev.value.key], ev.value)];
      }
      r := Acknowledged;
    }
  }

  /** The numbers `+65123` and `+1415555` reach the callflow as `65123` and `1415555`. */
  lemma StrippedCallflow()
    ensures BridgeResponse("+65123", "+1415555") == Response(200, Callflow([MakeCall("65123", "1415555")]))
  {
    LStripUnique("+65123", '+', "65123");
    LStripUnique("+1415555", '+', "1415555");
  }

  /** A call-status body for session `S1`. */
  function EarlyStatusBody(): Json {
    JObj(map[
      "eventType" := JStr("CALL_STATUS"),
      "payload" := JObj(map["sessionId" := JStr("S1"), "callStatus" := JStr("CALL_CONNECTED")])])
  }

  /** A new-inbound-call body for session `S1`, from `+1000` to the virtual number `+65123`. */
  function InboundCallBody(): Json {
    JObj(map[
      "eventType" := JStr("CALL_ACTION"),
      "payload" := JObj(map[
        "callStatus" := JStr("CALL_RECEIVED"), "sessionId" := JStr("S1"),
        "source" := JStr("+1000"), "destination" := JStr("+65123")])])
  }

  /** The payload of a later call-status event for session `S1`. */
  function ConnectedPayload(): map<string, Json> {
    map["sessionId" := JStr("S1"), "callStatus" := JStr("CALL_CONNECTED"), "callId" := JStr("C7")]
  }

  /** A call-status body reporting that call `C7` of session `S1` connected. */
  function ConnectedStatusBody(): Json {
    JObj(map["eventType" := JStr("CALL_STATUS"), "payload" := JObj(ConnectedPayload())])
  }

  lemma ConnectedStatusSelectsS1()
    ensures ReadStatusEvent(ConnectedStatusBody()) == Some(StatusEvent(StrKey("S1"), JStr("CALL_STATUS"), ConnectedPayload()))
    ensures Get(ConnectedPayload(), "callStatus", JNull) == JStr("CALL_CONNECTED")
    ensures Get(ConnectedPayload(), "callId", JNull) == JStr("C7")
  {
  }

  /** A complete configuration forwarding to `+1415555`. */
  function CompleteEnv(): Env {
    map[ApiKeyVar := "key", SubaccountVar := "acct", ForwardedVar := "+1415555"]
  }

  lemma InboundCallIsBridged()
    ensures ReadActionEvent(InboundCallBody()).Success?
    ensures var ev := ReadActionEvent(InboundCallBody()).value;
      && ev == ActionEvent(JStr("CALL_ACTION"), JStr("CALL_RECEIVED"), JStr("S1"), JStr("+1000"), JStr("+65123"), JNull)
      && IsNewInboundCall(ev)
      && ActionMissing(CompleteEnv(), ev.destination) == []
      && CompleteEnv()[ForwardedVar] == "+1415555"
  {
    var env := CompleteEnv();
    assert IsSet(env, ApiKeyVar) && IsSet(env, SubaccountVar) && IsSet(env, ForwardedVar);
  }

  /** A call-status event that arrives before the action event is dropped.
      The action event then creates a fresh record that keeps the `+` of the
      virtual number, while the callflow uses the numbers without it.  A
      call-status event after it merges the call status and call id into
      that record and keeps the stored numbers. */
  method StatusBeforeAction() returns (early: Response, created: bool, stored: Session, bridge: Response, merged: Session)
    ensures early == Acknowledged && !created
    ensures stored.caller == JStr("+1000") && stored.virtualNumber == JStr("+65123")
    ensures stored.status == JStr("bridging") && stored.eventType == None && stored.lastUpdate == None
    ensures bridge == Response(200, Callflow([MakeCall("65123", "1415555")]))
    ensures merged.status == JStr("CALL_CONNECTED") && merged.callId == JStr("C7")
    ensures merged.eventType == Some(JStr("CALL_STATUS")) && merged.lastUpdate == Some(JObj(ConnectedPayload()))
    ensures merged.caller == JStr("+1000") && merged.virtualNumber == JStr("+65123")
    ensures merged.forwardedNumber == "+1415555" && merged.sessionStatus == None
  {
    var registry := new CallRegistry();
    early := registry.VoiceCallStatus(Parsed(EarlyStatusBody()));
    created := StrKey("S1") in registry.activeCalls;
    InboundCallIsBridged();
    StrippedCallflow();
    bridge := registry.VoiceCallAction(Parsed(InboundCallBody()), CompleteEnv());
    stored := registry.activeCalls[StrKey("S1")];
    ConnectedStatusSelectsS1();
    var ack := registry.VoiceCallStatus(Parsed(ConnectedStatusBody()));
    merged := registry.activeCalls[StrKey("S1")];
  }
}
