# Car voice assistant: a Dafny model

This project models the logic of the car voice assistant. The system has two halves:

- **The FastAPI backend.** It reads an OBD-II adapter into a telemetry snapshot. It answers
  voice commands, trying a language-model provider chain first and falling back to
  rule-based keyword answers. Its settings come from environment variables.
- **The React frontend.** It merges two telemetry feeds into one dashboard: a two-second
  poll of `GET /obd` and a WebSocket push. It also runs a voice session: speech
  recognition, a POST to `/voice/command`, then speech synthesis of the reply.

Each source file has its own module:

| module | file | source |
|---|---|---|
| `Wrappers` | `wrappers.dfy` | `Option` and `Result` |
| `Text` | `text.dfy` | Python's `str.lower`, `in` on strings, `str.strip`, `str(int)` and `int(str)` |
| `Telemetry` | `telemetry.dfy` | the snapshot dictionary both halves exchange, and the metric names |
| `Config` | `config.dfy` | `backend/config.py` |
| `Obd` | `obd_service.dfy` | `backend/obd_service.py`, including the class `ObdService` |
| `VoiceProcessor` | `voice_processor.dfy` | `backend/voice_processor.py` |
| `Api` | `main.dfy` | the handlers of `backend/main.py` |
| `ObdMonitor` | `obd_monitor.dfy` | `frontend/src/OBDMonitor.jsx`, including the class `Monitor` |
| `App` | `app.dfy` | `frontend/src/App.jsx`, including the class `AppState` |
| `TelemetryFeeds` | `telemetry_feeds.dfy` | `App` and `OBDMonitor` together, as a history of poll and push events |
| `VoiceUi` | `voice_assistant.dfy` | `frontend/src/VoiceAssistant.jsx`, including the class `VoiceAssistant` |

Code that changes state step by step is modelled as classes with `modifies` frames:

- the OBD service's `is_connected` and `last_data`;
- the React state cells of `App`, `OBDMonitor` and `VoiceAssistant`.

Pure derivations are modelled as functions, with lemmas about them. These cover:

- configuration;
- the rule-based answer;
- the provider chain;
- single-parameter reads;
- the dashboard view.

Foreign collaborators are parameters:

- **OBD adapter.** A function from metric to query result: a value and a unit, each
  possibly absent, or an exception.
- **Language-model providers.** Each gives a completion text or an exception.
- **Speech recognizer.** It gives recognised text, "not understood", a timeout or an
  exception.
- **Clock.** Timestamps are strings passed in.
- **Browser.** Recognition, synthesis and fetch completions are events. Each event is a
  method called with its outcome.

When a frontend callback asks something of the outside world, the request is returned as
a list of `Effect`s. This covers alerts, starting and stopping the recognizer, POSTs, the
`onResponse` call and utterances.

Several behaviours one might expect of a live dashboard are absent from the code. The
model follows the code and proves the absence of each:

- **No timestamp ordering between feeds.** The poll and push feeds are not merged by
  timestamp, so the newest snapshot does not necessarily win. The last push to arrive
  always wins, and once anything has been pushed, polls no longer reach the panel. See
  `TelemetryFeeds.LaterArrivalWins` and `TelemetryFeeds.PushHidesLaterPolls`.
- **No staleness window and no Live/Degraded/Offline state.** "Live" is exactly
  `connected !== false` of the snapshot shown. The header's flag and the panel's flag can
  disagree. See `TelemetryFeeds.HeaderAndPanelDisagree`.
- **No mutual exclusion of listening and speaking.** See
  `VoiceUi.ListeningWhileSpeaking`.
- **No single-flight voice session.** A new recognition can start while a command is
  still being dispatched. Replies are stored in the order they settle, not the order they
  were sent. See `VoiceUi.StartWhileDispatching` and `VoiceUi.StaleReplyWins`.

## Model

| member | source | states |
|---|---|---|
| Config.IntSetting | backend/config.py:14 | An unset variable yields the default itself. A set one yields the number its text denotes, or an `InvalidLiteral` error carrying that text when `int()` would raise. |
| Config.DebugFlag | backend/config.py:17 | A missing DEBUG means false. A present one is true exactly when its lower-cased value equals "true". |
| Config.Load | backend/config.py:6-18 | Loading succeeds iff both OBD_BAUDRATE and PORT parse. A bad OBD_BAUDRATE is the error reported, even when PORT is bad too; with a good OBD_BAUDRATE, a bad PORT is the error reported. The API keys are the raw lookups, `None` when unset and with no default. OBD_PORT defaults to "COM3". DEBUG follows `DebugFlag`. The baud rate and port are the values `IntSetting` parsed, or the defaults 115200 and 8000 when unset. |
| Config.EmptyEnvironmentDefaults | backend/config.py:8-18 | An empty environment gives no API keys, "COM3", 115200, debug off and port 8000. |
| Config.DebugIgnoresCase | backend/config.py:17 | A DEBUG value and its lower-cased form give the same flag. |
| Config.DebugExamples | backend/config.py:17 | "TRUE" enables debugging; "1" does not. |
| Config.PortRoundTrip | backend/config.py:18 | PORT set to the decimal text of p loads as port p. |
| Config.NonNumericPortFails | backend/config.py:18 | PORT set to "abc" makes loading fail with that literal. |
| Text.ToLower | backend/voice_processor.py:112 | The result has the same length, and each character is the lower-cased input character. |
| Text.ToLowerIdempotent | backend/voice_processor.py:112 | A lower-cased text has no capitals, and lower-casing it again changes nothing. |
| Text.ContainsIff | backend/voice_processor.py:114 | The substring test `word in text` holds iff the word occurs at some position of the text. |
| Text.ContainsTransitive | backend/voice_processor.py:121 | A substring of a substring is a substring. |
| Text.Strip | backend/main.py:51 | The stripped text is empty iff the input is all whitespace (Python's `isspace` set). Otherwise it begins and ends with a non-space character. |
| Text.StripSplits | backend/main.py:51 | The stripped text is a substring of the input. It sits in the input at some position with only whitespace before and after it, so only outer whitespace is removed. |
| Text.StripOfPadded | backend/main.py:51 | Conversely, for any text that neither begins nor ends with whitespace, wrapping it in whitespace on both sides and stripping gives it back exactly. |
| Text.StripIdempotent | backend/main.py:51 | Stripping twice is stripping once. |
| Text.IntToString | backend/voice_processor.py:119 | The decimal text is non-empty, has no surrounding whitespace, and starts with '-' iff the number is negative. |
| Text.NatToStringValue | backend/voice_processor.py:119 | The digits written for n denote n. |
| Text.IntToStringCanonical | backend/voice_processor.py:119 | `str(n)` is canonical: after an optional '-' comes a non-empty run of digits, with no '+' and no leading zero, denoting the magnitude of n. |
| Text.ParseInt | backend/config.py:14-18 | Whatever `int()` accepts strips to a non-empty text. |
| Text.ParseIntAccepts | backend/config.py:14-18 | `int()` accepts a text iff, once stripped, it is a non-empty run of ASCII digits with an optional leading '+' or '-'. The value is the digits' value, negated after '-'. |
| Text.IntToStringRoundTrip | backend/config.py:18 | `int(str(n)) == n` for every integer. |
| Telemetry.ParseMetric | backend/obd_service.py:97-107 | A name is known iff it is one of the seven keys speed, rpm, temperature, fuel, engine_load, throttle and battery. A known name gives the metric carrying that name. |
| Telemetry.ParseMetricName | backend/obd_service.py:97-105 | Every metric is found under its own key. |
| Telemetry.ReportsConnected | frontend/src/OBDMonitor.jsx:48 | Only an explicit `connected: false` is offline; a missing flag counts as connected. |
| Obd.UnitOr | backend/obd_service.py:45 | A present, non-empty unit is kept; otherwise the default is used. |
| Obd.Entry | backend/obd_service.py:43-86 | The value is the magnitude, or 0 without one. Speed and temperature keep the adapter's unit, falling back to km/h and °C. RPM has unit "rpm"; fuel, engine load and throttle have "%". |
| Obd.PolledOnce | backend/obd_service.py:40-86 | Every metric except the battery is queried, each at exactly one position. |
| Obd.FailureIndex | backend/obd_service.py:39-90 | Every query before the returned position answered, and the query at that position raised, unless the position is the end. |
| Obd.ReadingsUpTo | backend/obd_service.py:43-86 | The entries gathered are exactly the first n metrics in query order. |
| Obd.ReadingsUpToEntries | backend/obd_service.py:43-86 | Each of the first n metrics maps to the entry built from its own answer (value and unit as `Entry` states); a later query never overwrites an earlier metric. |
| Obd.AllData | backend/obd_service.py:29-93 | Disconnected gives only the error "OBD not connected" and `connected: false`, with no timestamp. Connected gives `connected: true` and the timestamp. Its readings are the entries of every metric queried before the first query that raised (all six when none raised), and its error is that query's exception text, or absent when none raised. A battery entry is never included. |
| Obd.AllDataComplete | backend/obd_service.py:34-88 | When every query answers, there is no error and exactly the six metrics speed, rpm, temperature, fuel, engine_load and throttle. Their units are rpm, %, % and % for rpm, fuel, engine load and throttle. |
| Obd.AllDataPartial | backend/obd_service.py:39-91 | When the k-th query is the first to raise, the entries of the first k metrics are kept and that exception's text is the error. |
| Obd.QueryInto | backend/obd_service.py:41-46 | One query block either adds the metric's entry or records the exception's text and stops. It stops exactly when the query raised. |
| Obd.ObdService.constructor | backend/obd_service.py:9-13 | `last_data` starts empty, and the service is connected iff the adapter reported a connection. |
| Obd.ObdService.Connect | backend/obd_service.py:15-27 | The flag is the adapter's report; an exception sets it false. |
| Obd.ObdService.GetAllData | backend/obd_service.py:29-93 | The result is `AllData` for the current flag. `last_data` is replaced only by a connected snapshot without an error and is otherwise unchanged. |
| Obd.ObdService.GetSpecificData | backend/obd_service.py:95-121 | An unknown name is reported as "Unknown parameter: name", without a `connected` key, even when disconnected. A known name while disconnected gives "OBD not connected" with `connected: false`. A known name whose query raises, while connected, gives that exception's text with `connected: false` and no value or unit. The reply has no error iff the name is known, the service is connected and the query answered; `connected` is true exactly then. The value defaults to 0 and the unit to "". |
| Obd.RefusedRequestsIgnoreAdapter | backend/obd_service.py:107-111 | An unknown name, or any name while disconnected, gives a reply that does not depend on the adapter. |
| VoiceProcessor.FirstMatchPicks | backend/voice_processor.py:114-138 | The first branch with a keyword in the text decides, whatever later branches would say. |
| VoiceProcessor.FirstMatchNone | backend/voice_processor.py:114-140 | When no branch has a keyword in the text, the answer falls through to help. |
| VoiceProcessor.FirstMatchSource | backend/voice_processor.py:114-138 | A non-help answer comes from a branch that matched, all earlier branches being silent. |
| VoiceProcessor.FirstMatchHelpFires | backend/voice_processor.py:140 | Help is chosen only when no branch matched. |
| VoiceProcessor.Classify | backend/voice_processor.py:112-140 | The lower-cased text gets help iff no branch has a keyword in it. |
| VoiceProcessor.FallbackResponse | backend/voice_processor.py:110-140 | The answer is never empty. Help gives the fixed help message and a greeting gives the fixed greeting. A speed, RPM, temperature or fuel question gives that metric's sentence with its value ("Current speed is v km/h.", "Engine RPM is v.", "Engine temperature is v°C.", "Fuel level is v%."). A status question gives all four values in one sentence. Each value is the snapshot's, or 0 when absent. |
| VoiceProcessor.FallbackIgnoresCase | backend/voice_processor.py:112 | Lower-casing the request first does not change the answer. |
| VoiceProcessor.ClassifyPicks | backend/voice_processor.py:114-138 | The branches are tried in order: the first whose keyword is in the lower-cased text decides the intent, whatever later branches would match. |
| VoiceProcessor.GreetingShadowsAll | backend/voice_processor.py:114-115 | "hello", "hey" or "hi" anywhere in the lower-cased text, even inside a word, makes the greeting win over every other branch. |
| VoiceProcessor.ThisGreets | backend/voice_processor.py:114 | "this" is answered as a greeting, through its "hi". |
| VoiceProcessor.EverythingOkayGreets | backend/voice_processor.py:114-115 | "Is everything okay with the car?" gets the greeting, through the "hi" in "everything". |
| VoiceProcessor.RpmNeedsRpm | backend/voice_processor.py:117-123 | An RPM answer requires "rpm" in the text. The keyword "engine speed" can never decide, because the speed branch's "speed" matches first. |
| VoiceProcessor.SpeedAnswersSayKmh | backend/voice_processor.py:117-138 | Speed and status answers always contain "km/h", whatever unit the snapshot carries. |
| VoiceProcessor.MissingMetricReadsZero | backend/voice_processor.py:117-131 | A question about a metric missing from the snapshot reports it as 0: "Current speed is 0 km/h.", "Engine RPM is 0.", "Engine temperature is 0°C." or "Fuel level is 0%.". |
| VoiceProcessor.EmptySnapshotStatusReadsZero | backend/voice_processor.py:133-138 | A status question on a snapshot without metrics reports every value as 0: "Car status: Speed 0 km/h, RPM 0, Temperature 0°C, Fuel 0%." |
| VoiceProcessor.ProcessWithAi | backend/voice_processor.py:65-108 | OpenAI's text, stripped, is used when its key is set and the call succeeds. Otherwise Gemini's text, stripped, is used when its key is set and its call succeeds. In every other case the rule-based answer is used. |
| VoiceProcessor.FailingOpenAiIsSkipped | backend/voice_processor.py:83-96 | An OpenAI call that raises has the same effect as an unset OpenAI key. |
| VoiceProcessor.EmptyAnswerComesFromProvider | backend/voice_processor.py:94-108 | An empty answer can only come from a consulted provider whose text is all whitespace. |
| VoiceProcessor.Listen | backend/voice_processor.py:34-63 | Recognised text is returned lower-cased. Any exception raised by recognition, once audio was captured, gives "Sorry, I couldn't understand that.". While capturing audio, the wait timeout gives "No speech detected." and any other exception gives "Error: " followed by its text. |
| VoiceProcessor.ListenFailuresAreCapitalised | backend/voice_processor.py:41-63 | The result has no capital letter iff speech was recognised, so failure messages cannot be confused with transcripts. |
| Api.CommandText | backend/main.py:51-54 | A missing or blank text is refused with 400 "No text provided". Otherwise the stripped text, which is non-empty, is accepted. |
| Api.ProcessVoiceCommand | backend/main.py:45-70 | A refused request leaves the OBD service untouched and consults no provider. An accepted one reads one snapshot and echoes it. It passes that same snapshot to the provider chain, whose result is the response. `original_command` is the stripped text. The service keeps its connection flag, and the snapshot becomes its last data exactly when it completed while connected. |
| Api.TextToSpeech | backend/main.py:72-79 | A non-empty text is spoken as it is, whitespace included, and echoed with status "spoken". An empty or missing text gives "no text provided" and speaks nothing. |
| Api.BlankTextDiffersByEndpoint | backend/main.py:51-78 | Two spaces are refused as a command but spoken by the speak endpoint. |
| Api.GetObdData | backend/main.py:35-38 | `GET /obd` returns the service's full snapshot for its current connection flag, which it leaves unchanged. The service's last data becomes that snapshot when it completed while connected and is otherwise unchanged. |
| Api.GetSpecificObdData | backend/main.py:40-43 | `GET /obd/{parameter}` returns the service's single-parameter reply unchanged. |
| ObdMonitor.Displayed | frontend/src/OBDMonitor.jsx:37 | A held push snapshot is shown if there is one, else the polled one. Nothing is shown only when neither exists. |
| ObdMonitor.Monitor.constructor | frontend/src/OBDMonitor.jsx:5 | The held snapshot starts as the `data` prop the component was mounted with. |
| ObdMonitor.Monitor.OnMessage | frontend/src/OBDMonitor.jsx:15-18 | A message replaces the held snapshot wholesale and from then on is shown whatever is polled. |
| ObdMonitor.CappedFill | frontend/src/OBDMonitor.jsx:76 | The fill never exceeds 100. Up to the maximum it is value/max × 100, from the maximum on it is 100, and a negative value gives a negative fill. |
| ObdMonitor.CappedFillMonotone | frontend/src/OBDMonitor.jsx:76 | A larger value never draws a shorter meter. |
| ObdMonitor.UnitShown | frontend/src/OBDMonitor.jsx:71 | A missing metric shows the fallback label, and so does a present metric whose unit is empty. Otherwise the metric's own unit is shown. |
| ObdMonitor.Render | frontend/src/OBDMonitor.jsx:37-164 | The loading view is shown iff there is no snapshot. The panel is live iff `connected !== false`. Every metric shows its value or 0. Each gauge shows the snapshot's non-empty unit, falling back to km/h, rpm, °C and %. Speed, RPM and temperature fills are the capped shares of 200, 8000 and 120, so at most 100; the fuel fill is the raw value. Low fuel is flagged iff a fuel entry exists with a value below 20. The battery card appears iff a battery entry exists and shows its value. |
| ObdMonitor.MissingMetricsShowDefaults | frontend/src/OBDMonitor.jsx:70-133 | A snapshot without metrics shows 0 with units km/h, rpm, °C and %. It shows no low-fuel warning and no battery card. |
| ObdMonitor.OnlyExplicitFalseIsOffline | frontend/src/OBDMonitor.jsx:48-55 | `connected: false` renders offline; a missing `connected` renders live. |
| ObdMonitor.FuelMeterUncapped | frontend/src/OBDMonitor.jsx:130 | A fuel value above 100 draws a fill above 100. |
| App.AfterPoll | frontend/src/App.jsx:19-29 | A poll that returns a body stores it, error bodies included, and sets connected iff `body.connected !== false`. A poll that throws keeps the old body and sets disconnected. |
| App.AppState.constructor | frontend/src/App.jsx:8-10 | Initially there is no polled snapshot, the header says disconnected and the latest response is "". |
| App.AppState.FetchObdData | frontend/src/App.jsx:19-29 | The new `(obdData, isConnected)` is `AfterPoll` of the old body and the outcome. |
| App.AppState.OnResponse | frontend/src/App.jsx:53 | The latest response becomes the text passed in, `undefined` included. |
| App.AppState.HeaderStatus | frontend/src/App.jsx:37-38 | The header reads "OBD-II Connected" iff connected and "OBD-II Disconnected" iff not. |
| App.AppState.ShownResponse | frontend/src/App.jsx:56-61 | The response box shows the latest response iff it is a non-empty text. |
| App.ErrorBodyIsKept | frontend/src/App.jsx:22-24 | The backend's `{"error": …, "connected": false}` body still replaces the stored snapshot, and the header turns disconnected. |
| App.FailedPollKeepsBody | frontend/src/App.jsx:25-28 | After a good poll and a failed one, the good body is still stored while the header says disconnected. |
| TelemetryFeeds.ReplayState | frontend/src/OBDMonitor.jsx:15-37 | After any history of polls and pushes, the state is determined by three things: the last polled body, the last poll's verdict and the last push. |
| TelemetryFeeds.ChosenSnapshot | frontend/src/OBDMonitor.jsx:37 | The panel shows the last push if there was one, else the last polled body. It shows nothing iff there was neither. |
| TelemetryFeeds.LastPushSurvivesPolls | frontend/src/OBDMonitor.jsx:15-18 | Polls after a push do not change which push was the last. |
| TelemetryFeeds.PushHidesLaterPolls | frontend/src/OBDMonitor.jsx:15-37 | Once a message has been pushed, later polls, whatever they return, do not change the snapshot the panel shows. |
| TelemetryFeeds.LaterArrivalWins | frontend/src/OBDMonitor.jsx:15-18 | Of two pushes, the later arrival is shown, whatever their timestamps. |
| TelemetryFeeds.HeaderIgnoresPushes | frontend/src/App.jsx:19-29 | A push never changes the header's connection flag. |
| TelemetryFeeds.HeaderAndPanelDisagree | frontend/src/App.jsx:25-38 | A live push followed by a failed poll gives a disconnected header over a live panel. |
| VoiceUi.VoiceAssistant.constructor | frontend/src/VoiceAssistant.jsx:5-9 | The component starts not listening and not speaking, with command "" and response "". |
| VoiceUi.VoiceAssistant.ToggleListening | frontend/src/VoiceAssistant.jsx:92-103 | Without a recognizer the only effect is the fixed alert. With one, the recognizer is stopped when listening and started otherwise. The method changes no state itself. |
| VoiceUi.VoiceAssistant.OnStart | frontend/src/VoiceAssistant.jsx:21-23 | The recognizer's start event sets listening. |
| VoiceUi.VoiceAssistant.OnError | frontend/src/VoiceAssistant.jsx:31-34 | A recognition error clears listening. |
| VoiceUi.VoiceAssistant.OnEnd | frontend/src/VoiceAssistant.jsx:36-38 | The recognizer's end event clears listening. |
| VoiceUi.VoiceAssistant.ProcessVoiceCommand | frontend/src/VoiceAssistant.jsx:44-52 | The text is posted as it is and becomes a pending command. |
| VoiceUi.VoiceAssistant.OnResult | frontend/src/VoiceAssistant.jsx:25-29 | The command becomes the first alternative of the first result, and exactly that text is posted. Listening is unchanged. |
| VoiceUi.VoiceAssistant.SpeakText | frontend/src/VoiceAssistant.jsx:70-90 | With speech synthesis, speaking is set and the utterance queued. Without it, nothing changes and nothing is spoken. |
| VoiceUi.VoiceAssistant.OnCommandSettled | frontend/src/VoiceAssistant.jsx:54-67 | A reply uses one text three ways: it is stored as the response, passed to `onResponse` when one is given, and spoken when synthesis exists. An exception stores "Sorry, I encountered an error. Please try again." with no other effect. The command and listening are never touched. |
| VoiceUi.VoiceAssistant.OnUtteranceSettled | frontend/src/VoiceAssistant.jsx:80-86 | The end or error of an utterance clears speaking, even if another utterance is still queued. |
| VoiceUi.VoiceAssistant.ClickMic | frontend/src/VoiceAssistant.jsx:126-130 | The mic button does nothing while speaking; otherwise it acts as `toggleListening`. |
| VoiceUi.VoiceAssistant.ClickSpeakAgain | frontend/src/VoiceAssistant.jsx:162-173 | The speak-again button does nothing while speaking; otherwise it speaks the current response. |
| VoiceUi.VoiceAssistant.ClickQuickCommand | frontend/src/VoiceAssistant.jsx:182-190 | A quick-command button is never disabled. It posts its fixed text and leaves the command unchanged. |
| VoiceUi.VoiceAssistant.StatusLabel | frontend/src/VoiceAssistant.jsx:119-121 | The label reads "Listening..." iff listening and "Ready" iff not. |
| VoiceUi.ListeningWhileSpeaking | frontend/src/VoiceAssistant.jsx:25-62 | A recognised command can be answered and spoken before the recognizer's end event, leaving the component listening and speaking at once. |
| VoiceUi.StaleReplyWins | frontend/src/VoiceAssistant.jsx:44-67 | When the earlier of two commands is answered last, its reply is the one left displayed. |
| VoiceUi.SpeakingClearedEarly | frontend/src/VoiceAssistant.jsx:70-86 | The first of two utterances ending clears speaking while the second is still queued, and the mic button works again. |
| VoiceUi.StartWhileDispatching | frontend/src/VoiceAssistant.jsx:92-103 | A new recognition can be started while a command is still pending. |
| VoiceUi.NoRecognizerOnlyAlerts | frontend/src/VoiceAssistant.jsx:92-96 | Without a recognizer, the mic button only alerts and no state changes. |

Each state-changing method of `VoiceUi.VoiceAssistant` also preserves the invariant
`Valid()`:

- speaking implies at least one queued utterance;
- without synthesis, nothing is ever queued;
- without a recognizer, the component never listens.

## Left out

- **Letter case.** `Text.ToLower` lower-cases ASCII letters only. Python's `str.lower`
  also maps other Unicode capitals, and `VoiceProcessor.Listen` inherits this
  restriction. All keywords and fixed messages are ASCII, so keyword matching is
  unaffected for ASCII requests.
- **Metric values.** Values are whole numbers. Python floats and their `str()`
  formatting are not modelled. `Math.round` on RPM is the identity for whole numbers.
  Gauge fills use exact real division instead of floating point.
- **`int()` parsing.** `Text.ParseInt` accepts surrounding whitespace, an optional sign
  and ASCII digits. Digit-group underscores and non-ASCII digits, which Python's `int()`
  also accepts, are not modelled.
- **JSON shapes.** The request field `text` is a string or absent. JSON `null`, numbers
  and non-object bodies are not modelled. A metric entry always carries both a value and
  a unit.
- **OBD library.** The library's decoding and `str(unit)` conversion
  (backend/obd_service.py:19-20, 42-83) are abstracted. The adapter is an oracle that
  answers each metric once per request.
- **Language-model clients.** The clients and the prompt text
  (backend/voice_processor.py:24-32, 68-105) are left out; each provider is reduced to
  its outcome.
- **Speech engines.** The pyttsx3 engine behind `speak` (backend/voice_processor.py:142-145)
  and the speech_recognition capture (backend/voice_processor.py:37) are left out. The
  speak endpoint's model returns the text it would hand to the engine.
- **Browser APIs.** The recognizer and `speechSynthesis` (frontend/src/VoiceAssistant.jsx:13-19, 88)
  are represented only by the `hasRecognizer` and `hasSynthesis` flags and by events.
  Queued utterances are a ghost counter.
- **Recognizer errors.** Calling `start()` on a recognizer that is already running throws
  in browsers. That error is not modelled.
- **WebSocket.** The WebSocket lifecycle and the server's push loop
  (frontend/src/OBDMonitor.jsx:9-34, backend/main.py:82-98) are network I/O. A push is
  only "a message arrived".
- **Polling timer.** The `setInterval` cadence and cleanup (frontend/src/App.jsx:13-17)
  are timing; a poll is an event carrying its outcome.
- **Rendered timestamp.** The "Last updated" time (frontend/src/OBDMonitor.jsx:57-59) is
  a clock and locale rendering.
- **Constant endpoints.** The root and `/health` endpoints (backend/main.py:24-33, 100-107)
  only return constant dictionaries, the connection flag, and on `/health` the current
  time, which is a clock reading.
- **Logging and markup.** `.env` loading, logging, `print`, JSX markup and CSS classes
  are left out.
- **Other frontend files.** `frontend/src/Dashboard.jsx` is presentation and
  `frontend/src/api.js` holds axios wrappers that the modelled components do not use;
  neither is part of this model.
- VoiceUi.VoiceAssistant.OnResult: requires a non-empty result list, which the
  browser always delivers. The recognizer callbacks require a recognizer, because they
  are only installed when one exists.
- VoiceUi.VoiceAssistant.ClickSpeakAgain: requires the response to be shown,
  because the button is not rendered otherwise.
