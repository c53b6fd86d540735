/** What the relay answers over HTTP. */
module Http {

  /** One callflow instruction; the relay only ever issues `makeCall`. */
  datatype CallAction = MakeCall(source: string, destination: string)

  /** A value stored in the health-status dict: a status word, or the list of
      missing variable names. */
  datatype HealthValue = Text(text: string) | Names(names: seq<string>)

  /** The JSON (or plain-text) body of a response. */
  datatype Body =
    | StatusReport(status: string)                  // {"status": ...}
    | Callflow(callflow: seq<CallAction>)           // {"callflow": [...]}
    | ErrorReport(error: string)                    // {"error": ...}
    | HealthReport(fields: map<string, HealthValue>) // the health-status dict
    | PlainText(text: string)                       // the framework's own error page

  datatype Response = Response(code: int, body: Body)

  /** `{"status": "ok"}` with 200: how the status webhooks acknowledge. */
  const Acknowledged := Response(200, StatusReport("ok"))

  /** `{"status": "ignored"}` with 200: an action event that is not a new inbound call. */
  const Ignored := Response(200, StatusReport("ignored"))

  /** The web framework's answer to an exception that escapes a handler. */
  const Uncaught := Response(500, PlainText("Internal Server Error"))
}
