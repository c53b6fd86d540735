# Call-masking relay for the 8x8 voice API: a Dafny model

The relay receives webhooks from the 8x8 voice API. When an inbound call
arrives on a virtual number, it answers with a callflow that bridges the call
to a configured forwarding number. The caller then sees the virtual number,
not the real one. The relay keeps an in-memory registry of call sessions,
which later call-status and session-status webhooks update. It also reports
its health from the presence of its required configuration.

This model covers the decision logic and the shared state of `main.py`:

- `Json` (json.dfy) models decoded request bodies. It covers the Python
  behaviour the handlers depend on: truthiness, `dict.get` defaults, dict-key
  equality (`True == 1`), and the text of the AttributeError and TypeError
  that the handlers turn into responses.
- `Text` (text.dfy) models `str.lstrip('+')` and `', '.join`.
- `Config` (config.dfy) models the environment (a map from variable name to
  value) and the lists of missing settings.
- `Relay` (relay.dfy) models the registry `active_calls` as the class
  `CallRegistry`. Its map field is reassigned by the three webhook handlers.
- `Health` (health.dfy) models the `health_status` dict as the class
  `HealthMonitor`, updated by the health endpoint and the startup hook.
- `Http` (http.dfy) models the response codes and bodies.

Each handler is one atomic step on the registry. Where the handler raises
and catches an exception, the model returns the response the `except`
branch builds. Where the exception escapes the handler, the model returns
the web framework's plain 500 page.

Behaviour of the code that its own comments or its evident intent do not
lead one to expect:

- The status webhooks' comments say they return 200 to acknowledge receipt,
  even on error (main.py:175, 201, 212, 235). But `json.loads` runs before
  the `try` (main.py:171, 208). A body that is not valid JSON therefore
  escapes as an exception, and the framework answers 500 "Internal Server
  Error".
- The health endpoint only overwrites `status` when it becomes healthy. A
  `missing_vars` entry left by an earlier misconfigured check stays in the
  healthy report.
- Suppose the action webhook's `destination` is truthy but not a string (a
  number, say). The session is stored first, and only then does `lstrip`
  fail. The webhook answers 500, but the registry keeps the new record.

## Model

| member | source | states |
|---|---|---|
| `Json.HashKey` | main.py:120 | a session id can key the registry unless it is a list or a dict (Python refuses to hash those); a string id keys by its text |
| `Json.SameKeyIffPythonEqual` | main.py:188 | two hashable ids select the same registry entry exactly when Python calls them equal (`true` and `1` collide) |
| `Text.LStrip` | main.py:130-131 | `lstrip('+')` returns a suffix of its input, preceded only by `+`, that does not itself start with `+` |
| `Text.LStripUnique` | main.py:130-131 | those three properties determine the stripped number uniquely |
| `Text.LStripSplit` | main.py:130-131 | the input is exactly the stripped run of `+` followed by the result |
| `Text.LStripRun` | main.py:130-131 | a whole run of leading `+` is removed, not just the first |
| `Text.LStripIdempotent` | main.py:130-131 | stripping an already stripped number changes nothing |
| `Text.JoinNamesEach` | main.py:115 | the `', '.join` of the missing items mentions every one of them |
| `Config.Unset` | main.py:251 | the comprehension keeps exactly the names that are unset or empty |
| `Config.MissingRequired` | main.py:250-251 | `missing_vars` holds exactly the required variables that are unset or empty, and is empty iff all three are set |
| `Config.MissingRequiredInOrder` | main.py:291-297 | the filtered list equals the append sequence: API key, then subaccount id, then forwarded number, each only if missing |
| `Config.ActionMissing` | main.py:109-114 | the action webhook's list is empty iff API key, subaccount id, forwarded number and the event's destination are all truthy; it names exactly the missing ones |
| `Relay.CollectMissing` | main.py:110-114 | the successive appends build the list `ActionMissing` describes, in the fixed order |
| `Relay.ReadActionEvent` | main.py:90-95 | reading the fields fails (AttributeError) exactly when the body or its `payload` (default `{}`) is not a dict; otherwise `eventType` is read from the top level |
| `Relay.BridgeResponse` | main.py:129-150 | the success answer is 200 with exactly one `makeCall`; neither number starts with `+`; the source is the virtual number minus a run of leading `+`, and the destination is the forwarded number minus a run of leading `+` |
| `Relay.StrippedCallflow` | main.py:129-144 | `+65123` and `+1415555` reach the callflow as `65123` and `1415555` |
| `Relay.ReadStatusEvent` | main.py:176-187 | an empty body, a body without `eventType`, a body or payload that is not a dict, and a falsy or unhashable `sessionId` select no session; a dict body with `eventType`, a dict `payload` (default `{}`) and a truthy, hashable `sessionId` selects the session keyed by that id, with that event type and payload |
| `Relay.ConnectedStatusSelectsS1` | main.py:181-185 | a call-status body for `S1` with call id `C7` selects `S1` and carries its call status and call id |
| `Relay.WithCallStatus` | main.py:189-194 | a call-status merge sets `status`, `event_type`, `call_id` and `last_update` and keeps every other field |
| `Relay.WithSessionStatus` | main.py:224-228 | a session-status merge sets `session_status`, `event_type` and `last_vss_update` only; `status` and `call_id` are kept |
| `Relay.CallRegistry.constructor` | main.py:42 | the registry starts empty |
| `Relay.CallRegistry.VoiceCallAction` | main.py:74-165 | bad JSON gives 400; a non-dict body or payload gives 500; an event that is not `CALL_ACTION`/`CALL_RECEIVED` with a truthy `sessionId` is ignored (200) with the registry unchanged; missing settings give 500 naming all of them, registry unchanged; otherwise exactly the entry for the session id is set (overwriting) to caller, unstripped virtual number, forwarded number, `bridging` and call id, and the answer is the stripped callflow |
| `Relay.CallRegistry.VoiceCallStatus` | main.py:167-202 | every decodable body is acknowledged with 200 `ok`; the key set never changes; only a known session selected by the body is merged; a body that is not JSON escapes as a 500 |
| `Relay.CallRegistry.VoiceSessionStatus` | main.py:204-236 | as the call-status webhook, with the session-status merge |
| `Relay.InboundCallIsBridged` | main.py:99-114 | a `CALL_ACTION`/`CALL_RECEIVED` body for `S1` with full configuration passes classification and the configuration check |
| `Relay.StatusBeforeAction` | main.py:187-194 | a status event before the action event creates nothing; the later action stores `+65123` with its `+` and answers with the stripped numbers; a status event after it merges `status`, `call_id`, `event_type` and `last_update` and keeps caller, numbers and session status |
| `Health.CollectMissingVars` | main.py:291-297 | the startup appends build the same list as the health endpoint's comprehension |
| `Health.HealthMonitor.constructor` | main.py:41 | the health status starts as `starting` |
| `Health.HealthMonitor.Check` | main.py:248-270 | missing variables give 503 with `status` `misconfigured` and `missing_vars` set to the list; none give 200 with only `status` overwritten to `healthy` |
| `Health.HealthMonitor.Startup` | main.py:282-304 | startup aborts exactly when a required variable is missing, naming all of them and leaving the health status alone; otherwise it sets `status` to `healthy` |
| `Health.StaleMissingVars` | main.py:258-270 | after a misconfigured check, a healthy check still reports the earlier `missing_vars` |

## Left out

- The FastAPI app, CORS and request-logging middleware, and `uvicorn.run`: framework plumbing with no decision logic.
- Logging (`logging.basicConfig` and every `logger` call): it changes no state the relay reads.
- The SIGTERM handler, `sys.exit` and the shutdown hook: process lifecycle. The `shutting_down` and `shutdown` health states are therefore not modelled.
- `load_dotenv`, `os.getenv` and the `VOICE_API_BASE_URL` and `PORT` constants: the environment is an input map, read only for the three required variables.
- `json.loads` itself: a body arrives already decoded, or as the reason decoding failed. JSON numbers are integers here, so floats, `NaN` and `Infinity`, and the key equality of `1.0` with `1`, are not modelled.
- The health endpoint's `except` branch (`unhealthy` with `error`): nothing inside its `try` can raise once the environment is a map of strings.
- Concurrency: handlers are `async`, but none awaits between reading and writing the registry. Each is modelled as one atomic step.
- `httpx`: imported but never used; this file makes no outbound API call.
