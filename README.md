# VogonPoet core, modelled in Dafny

VogonPoet is a desktop front end for the Babelfish speech engine. This project
models the logic at its core and proves properties of that model:

- **The bootstrap helper** (`bootstrap.py`). It is a small WebTransport server
  that the desktop app talks to while the engine is being installed. It
  routes the CONNECT request, fixes the session on the first data stream,
  streams JSON status frames, decides between NVIDIA and CPU mode from the
  VRAM figures `nvidia-smi` prints, runs `uv sync` while forwarding its
  output, and hands over to the engine.
- **The protocol client** (`BabelfishClient.kt`, `KwBabelfishClient.kt`). It
  turns status, event and config frames into connection, VAD and
  engine-mode state. It keeps a protocol log of at most 100 entries,
  correlates requests with responses, and refuses to send without a session.
- **The model catalogue and downloads** (`RemoteModel.kt`,
  `GitHubModelRepositoryClient.kt`, `ModelDownloadService.kt`): file names,
  version parsing, latest-version selection, download URLs, GitHub URL
  parsing, and the download state machine with its bounded retry, progress
  arithmetic, validation and cleanup.
- **Configuration** (`VogonConfig.kt`, `VogonConfigMapper.kt`): the defaults and
  the field-by-field mapping between the engine's document and the domain
  configuration.
- **The update check** (`UpdateChecker.kt`): version comparison and the update
  decision.
- **Presentation state** (`MainViewModel.kt`): draft synchronisation, the
  reset on INITIALIZING, and the activation counter.
- **The build-graph scripts** (the DOT and Mermaid Gradle scripts): the
  depth-first walk with its visited set, third-party label resolution,
  Mermaid id sanitisation and the sorted output.

Files, one per part: `bootstrap.dfy` and `statusframe.dfy` (the helper and its
JSON frame), `client.dfy`, `models.dfy`, `download.dfy`, `config.dfy`,
`update.dfy`, `viewmodel.dfy` and `depgraph.dfy`. `text.dfy` holds string and
integer helpers with the semantics of Python's `strip`, Kotlin's
`toIntOrNull` and 32/64-bit wrap-around. `wrappers.dfy` holds `Option` and
`Result`.

Code that mutates state is modelled as classes whose methods are proved against
specification functions:

- `BootstrapHandler`, `WebTransportProtocol` and the H3 `Connection`, whose
  `wire` records every call made on it;
- `BabelfishClient`, `KwBabelfishClient` and `MainViewModel`;
- `ModelDownloadService`, over a file system modelled as a map from path to
  length;
- the graph collector.

Pure code (the catalogue, the mapper, the URL and version functions) is
modelled as functions and lemmas. The network, subprocesses, JSON parsing and
the clock are parameters. For example, `Host.spawn` gives the outcome of
starting a command, and a `network(url, attempt)` function gives each download
attempt's result.

### Notes on the code

- The bootstrap helper has one NVIDIA probe. A failed `uv sync` is reported
  but is not fatal.
- The status frame is written by `json.dumps` with its default separators, so
  the keys and values are separated by ", " and ": ". `ensure_ascii` escapes
  everything outside printable ASCII.
- The client closes the bootstrap session when it sees "Starting
  Babelfish..." (BabelfishClient.kt:190). The helper sends "Starting
  Engine..." (bootstrap.py:248), so that close never fires. This is proved in
  `Client.StartingEngineKeepsSession`.
- `ModelDownloadService` stores an unversioned model as `<name>_vnull.onnx`
  and `<name>_vnull.tflite`, because it interpolates a null version
  (`ModelDownload.StoredFilenamesOfUnversionedModel`). Its tests expect
  `<name>.onnx`.
- The tests use members the code does not have: `displayedEvent`, a
  `backendRepository` constructor parameter, an `endpointProvider`, and a
  different `generateDownloadUrls` signature. The model follows the code.
- `VogonConfig.kt` does not declare the `InputStrategy` that the mapper uses.
  It is reconstructed from the mapper as an enumeration with a `value` string
  and a `CLIPBOARD` member (value "clipboard").
- The update checker's fallback repository URL keeps a trailing ".git" in the
  repository segment. The model catalogue's URL parser strips it.
- `RemoteModel` is a datatype, so its equality is structural over all five
  fields.

## Model

| member | source | states |
|---|---|---|
| Bootstrap.Connection.SendStreamData | composeApp/src/jvmMain/resources/scripts/bootstrap.py:134-149 | a stream write is recorded on the connection's wire after everything sent before it, and nothing else changes |
| Bootstrap.BootstrapHandler.SendUpdate | composeApp/src/jvmMain/resources/scripts/bootstrap.py:134-149 | with no stream established nothing is sent; otherwise exactly one status frame (type, message, vad_state, newline) is written on that stream without ending it |
| Bootstrap.StatusDecodes | composeApp/src/jvmMain/resources/scripts/bootstrap.py:138-141 | the JSON status frame decodes back to the message and VAD state it was built from |
| StatusFrame.FrameRoundTrip | composeApp/src/jvmMain/resources/scripts/bootstrap.py:138-141 | the json.dumps text of a status object, read back by a JSON string reader, yields the original message and VAD state for every Unicode message |
| StatusFrame.FrameIsOneLine | composeApp/src/jvmMain/resources/scripts/bootstrap.py:138-141 | a status frame ends with its single newline and contains no other newline, so the client's line reader sees it as one line |
| StatusFrame.EscapeInjective | composeApp/src/jvmMain/resources/scripts/bootstrap.py:138-141 | two messages with the same escaped JSON text are the same message |
| StatusFrame.DecodeEscaped | composeApp/src/jvmMain/resources/scripts/bootstrap.py:138-141 | the escaped text of any string followed by a closing quote decodes to that string and the rest of the input |
| StatusFrame.DecodeEscapedChar | composeApp/src/jvmMain/resources/scripts/bootstrap.py:138-141 | each character's ensure_ascii escape (short escape, \uXXXX or surrogate pair) decodes back to that character |
| StatusFrame.DecodeSurrogatePair | composeApp/src/jvmMain/resources/scripts/bootstrap.py:138-141 | a character above U+FFFF is escaped as a high/low surrogate pair that decodes back to it |
| StatusFrame.Escape | composeApp/src/jvmMain/resources/scripts/bootstrap.py:138-141 | the escaped text is printable ASCII only and never shorter than the message |
| StatusFrame.Hex4RoundTrip | composeApp/src/jvmMain/resources/scripts/bootstrap.py:138-141 | the four lower-case hex digits of a \u escape read back as the code unit they encode |
| Bootstrap.SentFramesDecode | composeApp/src/jvmMain/resources/scripts/bootstrap.py:134-149 | the frames sent for a list of updates are stream data, one per update, each decoding to that update's message with state bootstrapping |
| Bootstrap.SentIsOnlyData | composeApp/src/jvmMain/resources/scripts/bootstrap.py:134-149 | status updates never end the stream and never carry headers |
| Bootstrap.SentAppend | composeApp/src/jvmMain/resources/scripts/bootstrap.py:134-149 | sending two lists of updates one after the other writes the frames of their concatenation |
| Bootstrap.SentShape | composeApp/src/jvmMain/resources/scripts/bootstrap.py:134-149 | without a stream nothing is written; with one, update k becomes frame k on that stream |
| Bootstrap.BootstrapHandler.constructor | composeApp/src/jvmMain/resources/scripts/bootstrap.py:109-118 | a new handler has no stream and no task |
| Bootstrap.BootstrapHandler.H3EventReceived | composeApp/src/jvmMain/resources/scripts/bootstrap.py:120-128 | the first stream-data event fixes the stream id and starts the bootstrap coroutine once; every later event leaves the stream id and the number of started coroutines unchanged |
| Bootstrap.BootstrapHandler.StartBootstrap | composeApp/src/jvmMain/resources/scripts/bootstrap.py:130-132 | starting the bootstrap creates its asyncio task exactly once and keeps the stream id |
| Bootstrap.VramOfMembers | composeApp/src/jvmMain/resources/scripts/bootstrap.py:195-199 | a VRAM figure is collected exactly when some output line, stripped, is all ASCII digits and reads as that figure |
| Bootstrap.MaxOf | composeApp/src/jvmMain/resources/scripts/bootstrap.py:201-202 | the maximum of the figures is one of them and no figure exceeds it |
| Bootstrap.GpuDecisionReachesThreshold | composeApp/src/jvmMain/resources/scripts/bootstrap.py:201-215 | the figures select NVIDIA mode exactly when some figure reaches 6000 MiB |
| Bootstrap.NvidiaDecision | composeApp/src/jvmMain/resources/scripts/bootstrap.py:176-220 | NVIDIA mode holds iff VOGON_FORCE_CPU is unset or empty, the probe printed output, and some figure in it is at least 6000 MiB; a probe exception or no figures means CPU |
| Bootstrap.ForceCpuSkipsProbe | composeApp/src/jvmMain/resources/scripts/bootstrap.py:176-180 | any non-empty VOGON_FORCE_CPU value, "0" included, gives CPU mode with the force message whatever the probe would have printed |
| Bootstrap.BootstrapHandler.DetectHardware | composeApp/src/jvmMain/resources/scripts/bootstrap.py:172-220 | the hardware step reports "Detecting Hardware..." and the probe's messages, and its decision is the one the detection function makes |
| Bootstrap.SyncCommand | composeApp/src/jvmMain/resources/scripts/bootstrap.py:230-240 | the sync command starts with uv sync, and has exactly the extra CPU index URL arguments when not in NVIDIA mode |
| Bootstrap.BootstrapHandler.ChooseSyncCommand | composeApp/src/jvmMain/resources/scripts/bootstrap.py:230-240 | the command is the one SyncCommand selects, and the no-GPU notice is sent only in CPU mode |
| Bootstrap.BootstrapHandler.Prepare | composeApp/src/jvmMain/resources/scripts/bootstrap.py:172-240 | detection, the detected-mode and syncing notices and the command choice write exactly the preparation messages and return SyncCommand of the decision |
| Bootstrap.BootstrapHandler.RunCommand | composeApp/src/jvmMain/resources/scripts/bootstrap.py:151-168 | a spawn failure is returned with nothing sent; otherwise each non-empty stripped output line is sent as one status in order and the exit code is returned |
| Bootstrap.ForwardedLinesShape | composeApp/src/jvmMain/resources/scripts/bootstrap.py:156-165 | forwarded lines are never empty, each is the stripped text of some output line, and there are no more of them than output lines |
| Bootstrap.ForwardedLinesAppend | composeApp/src/jvmMain/resources/scripts/bootstrap.py:156-165 | forwarding output in two parts forwards the same lines, in the same order, as forwarding it at once |
| Bootstrap.HandoffFor | composeApp/src/jvmMain/resources/scripts/bootstrap.py:251-283 | the handoff runs uv run babelfish.py in the engine directory: call then exit with status 0 on win32, execvp of uv elsewhere |
| Bootstrap.BootstrapHandler.RunBootstrap | composeApp/src/jvmMain/resources/scripts/bootstrap.py:170-287 | the whole run writes exactly BootstrapRun's wire after what was sent before and ends in BootstrapRun's handoff |
| Bootstrap.BootstrapHandler.SyncAndHandOff | composeApp/src/jvmMain/resources/scripts/bootstrap.py:227-287 | from the sync on, the run writes the forwarded output, the failure notice when the exit code is nonzero, "Starting Engine...", then closes and hands off, or reports the exception |
| Bootstrap.BootstrapHandler.Close | composeApp/src/jvmMain/resources/scripts/bootstrap.py:251-283 | with a stream, the run ends the stream, closes the connection with code 0 and hands off unless the handoff raises; without one it sends and hands off nothing |
| Bootstrap.HandoffIffNoException | composeApp/src/jvmMain/resources/scripts/bootstrap.py:242-287 | the engine is handed off iff a stream exists and neither the sync spawn nor the handoff raises; the sync exit code plays no part |
| Bootstrap.SyncFailureIsNotFatal | composeApp/src/jvmMain/resources/scripts/bootstrap.py:242-255 | after a nonzero sync the last frames are the sync-failure notice, "Starting Engine...", the end of stream and the close, and the handoff still happens |
| Bootstrap.ExceptionIsReportedLast | composeApp/src/jvmMain/resources/scripts/bootstrap.py:285-287 | an exception is reported as one final "Error: <e>" status and no handoff happens; after a failed handoff that report follows the FIN and the connection close |
| Bootstrap.HeaderMapLastWins | composeApp/src/jvmMain/resources/scripts/bootstrap.py:311-313 | the header dictionary holds exactly the names sent, each mapped to the value of its last occurrence |
| Bootstrap.WebTransportProtocol.constructor | composeApp/src/jvmMain/resources/scripts/bootstrap.py:294-297 | a new connection has no handler |
| Bootstrap.WebTransportProtocol.SendResponse | composeApp/src/jvmMain/resources/scripts/bootstrap.py:337-345 | a response writes one header block with the status, plus the draft02 header for 200, ending the stream as asked |
| Bootstrap.WebTransportProtocol.HandshakeWebTransport | composeApp/src/jvmMain/resources/scripts/bootstrap.py:326-335 | a CONNECT to "/config" or "/" gets 200 and a fresh handler for that stream; any other path gets a 404 that ends the stream and no handler |
| Bootstrap.WebTransportProtocol.H3EventReceived | composeApp/src/jvmMain/resources/scripts/bootstrap.py:309-324 | HEADERS get 200, 404 or 400 (the last two ending the stream), a handler only for 200; other events send nothing and are passed to the handler, whose stream and task count change only on its first stream data |
| Bootstrap.DevSearchNearest | composeApp/src/jvmMain/resources/scripts/bootstrap.py:59-65 | the development search finds the nearest ancestor within 8 levels that holds a babelfish directory, and nothing when there is none |
| Bootstrap.LocateBabelfishDir | composeApp/src/jvmMain/resources/scripts/bootstrap.py:48-65 | the engine directory is the production one when it exists, else the development search's hit, else the production path |
| Client.LastEntries | composeApp/src/commonMain/kotlin/ovh/devcraft/vogonpoet/infrastructure/BabelfishClient.kt:327 | the log keeps the last 100 entries (all of them when fewer), oldest first |
| Client.LogWindow | composeApp/src/commonMain/kotlin/ovh/devcraft/vogonpoet/infrastructure/BabelfishClient.kt:316-328 | trimming after every append keeps the same window as trimming once, and the newest entry is always last |
| Client.BabelfishClient.LogMessage | composeApp/src/commonMain/kotlin/ovh/devcraft/vogonpoet/infrastructure/BabelfishClient.kt:316-328 | an entry is appended to the bounded log and no connection, VAD, mode or session state changes |
| Client.BabelfishClient.constructor | composeApp/src/commonMain/kotlin/ovh/devcraft/vogonpoet/infrastructure/BabelfishClient.kt:36-57 | a new client is disconnected, idle, in wakeword mode, with an empty log, no session and no handlers |
| Client.BabelfishClient.HandleIncomingLine | composeApp/src/commonMain/kotlin/ovh/devcraft/vogonpoet/infrastructure/BabelfishClient.kt:140-218 | a blank line changes nothing; any other line is logged as received and then changes the state exactly as HandleLine describes |
| Client.IgnoredLines | composeApp/src/commonMain/kotlin/ovh/devcraft/vogonpoet/infrastructure/BabelfishClient.kt:148-154 | a blank line, an unparsable line, a non-object, or an object without a string type leaves the whole state as it was |
| Client.LineEffectsBounded | composeApp/src/commonMain/kotlin/ovh/devcraft/vogonpoet/infrastructure/BabelfishClient.kt:140-218 | a line completes no new handler keys, keeps completed handlers, emits at most one event, never loses the config and asks for at most one session close |
| Client.BabelfishClient.ReceiveStatus | composeApp/src/commonMain/kotlin/ovh/devcraft/vogonpoet/infrastructure/BabelfishClient.kt:167-196 | a status frame changes connection, VAD and mode exactly as the status rules say, and nothing else |
| Client.ReadyStatus | composeApp/src/commonMain/kotlin/ovh/devcraft/vogonpoet/infrastructure/BabelfishClient.kt:173-184 | listening/idle VAD, engine_state ready or the "Engine Ready!" message sets Connected; VAD and mode change only for recognised values |
| Client.StatusLineShowsProgress | composeApp/src/commonMain/kotlin/ovh/devcraft/vogonpoet/infrastructure/BabelfishClient.kt:185-194 | any other status with a message shows Bootstrapping(message) and leaves VAD, mode, events and config alone |
| Client.BootstrapFrameShowsProgress | composeApp/src/commonMain/kotlin/ovh/devcraft/vogonpoet/infrastructure/BabelfishClient.kt:185-194 | every frame the bootstrap sends, other than "Engine Ready!", shows its message as Bootstrapping |
| Client.StartingEngineKeepsSession | composeApp/src/commonMain/kotlin/ovh/devcraft/vogonpoet/infrastructure/BabelfishClient.kt:185-194 | the bootstrap's "Starting Engine..." frame does not trigger the client's session close, which looks for "Starting Babelfish..." instead |
| Client.StatusLinesShowProgress | composeApp/src/commonMain/kotlin/ovh/devcraft/vogonpoet/infrastructure/BabelfishClient.kt:185-194 | after a run of bootstrap frames the client shows the last one's message |
| Client.BootstrapProgressShown | composeApp/src/commonMain/kotlin/ovh/devcraft/vogonpoet/infrastructure/BabelfishClient.kt:185-194 | reading the text the bootstrap writes for a list of updates leaves the client showing the last update |
| Client.SentText | composeApp/src/commonMain/kotlin/ovh/devcraft/vogonpoet/infrastructure/BabelfishClient.kt:148-150 | the stream text of the bootstrap's updates is the sequence of their frames |
| Client.BabelfishClient.ReceiveEvent | composeApp/src/commonMain/kotlin/ovh/devcraft/vogonpoet/infrastructure/BabelfishClient.kt:198-212 | an event frame sets Connected and emits the named engine event, and nothing else |
| Client.EventFrames | composeApp/src/commonMain/kotlin/ovh/devcraft/vogonpoet/infrastructure/BabelfishClient.kt:198-212 | an event sets Connected; wakeword_detected and stop_word_detected append their event in order, other names emit nothing |
| Client.BabelfishClient.ReceiveConfig | composeApp/src/commonMain/kotlin/ovh/devcraft/vogonpoet/infrastructure/BabelfishClient.kt:159-165 | a config frame replaces the config only when it decodes, and nothing else |
| Client.ContentOrNull | composeApp/src/commonMain/kotlin/ovh/devcraft/vogonpoet/infrastructure/BabelfishClient.kt:152-154 | a field reads as absent or null exactly when it is missing or JSON null, and fails exactly on arrays and objects |
| Client.RequestCorrelation | composeApp/src/commonMain/kotlin/ovh/devcraft/vogonpoet/infrastructure/BabelfishClient.kt:156 | a frame of the registered type completes that request's handler, and finishing the request returns the frame and removes the handler |
| Client.UnansweredRequestTimesOut | composeApp/src/commonMain/kotlin/ovh/devcraft/vogonpoet/infrastructure/BabelfishClient.kt:247-260 | a request with no answer times out and its handler is removed |
| Client.BabelfishClient.BeginRequest | composeApp/src/commonMain/kotlin/ovh/devcraft/vogonpoet/infrastructure/BabelfishClient.kt:245-252 | without a session it fails with "Not connected"; otherwise it registers the handler and sends the request text |
| Client.BabelfishClient.FinishRequest | composeApp/src/commonMain/kotlin/ovh/devcraft/vogonpoet/infrastructure/BabelfishClient.kt:254-260 | finishing a request removes its handler and returns the response, or the timeout |
| Client.BabelfishClient.Disconnect | composeApp/src/commonMain/kotlin/ovh/devcraft/vogonpoet/infrastructure/BabelfishClient.kt:220-228 | disconnect resets to Disconnected, Idle and wakeword mode, clears the session and keeps log, events and config |
| Client.BabelfishClient.SendOnSession | composeApp/src/commonMain/kotlin/ovh/devcraft/vogonpoet/infrastructure/BabelfishClient.kt:291-310 | a send fails with "Not connected" exactly when there is no session, and otherwise writes the message on the session and logs it |
| Client.BabelfishClient.SaveConfig | composeApp/src/commonMain/kotlin/ovh/devcraft/vogonpoet/infrastructure/BabelfishClient.kt:230-236 | saving fails with "Not connected" without a session, and otherwise sends the update_config message |
| Client.BabelfishClient.SetMicTest | composeApp/src/commonMain/kotlin/ovh/devcraft/vogonpoet/infrastructure/BabelfishClient.kt:291-296 | the mic test toggle fails without a session and otherwise sends the mic test message |
| Client.BabelfishClient.ForceListen | composeApp/src/commonMain/kotlin/ovh/devcraft/vogonpoet/infrastructure/BabelfishClient.kt:298-303 | force listen fails without a session and otherwise sends force_listen |
| Client.BabelfishClient.ToggleListening | composeApp/src/commonMain/kotlin/ovh/devcraft/vogonpoet/infrastructure/BabelfishClient.kt:305-310 | toggle listening fails without a session and otherwise sends toggle_listening |
| Client.BabelfishClient.Connect | composeApp/src/commonMain/kotlin/ovh/devcraft/vogonpoet/infrastructure/BabelfishClient.kt:61-65 | connect starts the connection job and changes no visible state |
| Client.BabelfishClient.ServerStatusChanged | composeApp/src/commonMain/kotlin/ovh/devcraft/vogonpoet/infrastructure/BabelfishClient.kt:68-92 | the server status moves the connection state as AfterServerStatus says and nothing else |
| Client.ErrorClearedOnlyByRestart | composeApp/src/commonMain/kotlin/ovh/devcraft/vogonpoet/infrastructure/BabelfishClient.kt:68-92 | an error state is replaced only when the server reports initializing or starting |
| Client.BabelfishClient.BeginAttempt | composeApp/src/commonMain/kotlin/ovh/devcraft/vogonpoet/infrastructure/BabelfishClient.kt:103 | a connection attempt shows Connecting |
| Client.BabelfishClient.SessionOpened | composeApp/src/commonMain/kotlin/ovh/devcraft/vogonpoet/infrastructure/BabelfishClient.kt:107-124 | an opened session is stored, shows bootstrapping progress, and sends and logs the hello message |
| Client.BabelfishClient.SessionEnded | composeApp/src/commonMain/kotlin/ovh/devcraft/vogonpoet/infrastructure/BabelfishClient.kt:141 | a closed session is cleared without other changes |
| Client.KwConnectOutcome | composeApp/src/commonMain/kotlin/ovh/devcraft/vogonpoet/infrastructure/KwBabelfishClient.kt:26-44 | connect does nothing while connected or connecting; otherwise it ends Connected with both handles on success, or in Error(message or "Unknown error") with no handles |
| Client.KwFailedConnectReleasesEndpoint | composeApp/src/commonMain/kotlin/ovh/devcraft/vogonpoet/infrastructure/KwBabelfishClient.kt:40-43 | a failed connect closes the endpoint it opened |
| Client.KwDisconnectReleases | composeApp/src/commonMain/kotlin/ovh/devcraft/vogonpoet/infrastructure/KwBabelfishClient.kt:46-65 | disconnect always ends Disconnected with no handles, closing connection then endpoint when connected |
| Client.KwBabelfishClient.constructor | composeApp/src/commonMain/kotlin/ovh/devcraft/vogonpoet/infrastructure/KwBabelfishClient.kt:17-24 | a new client is disconnected with no handles |
| Client.KwBabelfishClient.Connect | composeApp/src/commonMain/kotlin/ovh/devcraft/vogonpoet/infrastructure/KwBabelfishClient.kt:26-44 | the connect method changes the state exactly as KwConnect says |
| Client.KwBabelfishClient.Disconnect | composeApp/src/commonMain/kotlin/ovh/devcraft/vogonpoet/infrastructure/KwBabelfishClient.kt:46-49 | the disconnect method changes the state exactly as KwDisconnect says |
| Client.KwBabelfishClient.CleanupHandles | composeApp/src/commonMain/kotlin/ovh/devcraft/vogonpoet/infrastructure/KwBabelfishClient.kt:51-65 | cleanup nulls both handles whatever closing them does |
| RemoteModels.DisplayName | composeApp/src/commonMain/kotlin/ovh/devcraft/vogonpoet/domain/model/RemoteModel.kt:49-50 | the display name is the name, " [", the language tag and "]" |
| RemoteModels.OnnxFilename | composeApp/src/commonMain/kotlin/ovh/devcraft/vogonpoet/domain/model/RemoteModel.kt:55-56 | the ONNX file name is the stem (name, or name_v<version>) plus .onnx |
| RemoteModels.TfliteFilename | composeApp/src/commonMain/kotlin/ovh/devcraft/vogonpoet/domain/model/RemoteModel.kt:61-62 | the TFLite file name is the same stem plus .tflite |
| RemoteModels.FilenamesDifferOnlyInExtension | composeApp/src/commonMain/kotlin/ovh/devcraft/vogonpoet/domain/model/RemoteModel.kt:55-62 | the two file names share their stem and differ only in the extension |
| GitHubModels.ParseVersionOfVersionedName | composeApp/src/commonMain/kotlin/ovh/devcraft/vogonpoet/infrastructure/GitHubModelRepositoryClient.kt:168-172 | a name <stem>_v<digits>.onnx or .tflite (optionally with one final line terminator) parses to the digits' value, or null when it overflows Int |
| GitHubModels.ParsedVersionHasVersionedName | composeApp/src/commonMain/kotlin/ovh/devcraft/vogonpoet/infrastructure/GitHubModelRepositoryClient.kt:168-172 | a parsed version comes only from such a name, with that value |
| GitHubModels.FilenamesRoundTrip | composeApp/src/commonMain/kotlin/ovh/devcraft/vogonpoet/infrastructure/GitHubModelRepositoryClient.kt:168-172 | for a version v >= 0 both model file names parse back to v |
| GitHubModels.UnversionedNameMayParseAsVersioned | composeApp/src/commonMain/kotlin/ovh/devcraft/vogonpoet/infrastructure/GitHubModelRepositoryClient.kt:168-172 | an unversioned model named like alexa_v2 still has a file name that parses as version 2 |
| GitHubModels.CandidateVersions | composeApp/src/commonMain/kotlin/ovh/devcraft/vogonpoet/infrastructure/GitHubModelRepositoryClient.kt:182-191 | the candidates are exactly the parsed versions of files whose names start with the model name and end in .onnx or .tflite |
| GitHubModels.MaxOrNull | composeApp/src/commonMain/kotlin/ovh/devcraft/vogonpoet/infrastructure/GitHubModelRepositoryClient.kt:190-191 | the result is null only for no candidates and otherwise a candidate no smaller than any other |
| GitHubModels.FindLatestVersion | composeApp/src/commonMain/kotlin/ovh/devcraft/vogonpoet/infrastructure/GitHubModelRepositoryClient.kt:182-191 | null iff no matching file has a parsable version; otherwise the version of one of them, at least every other's |
| GitHubModels.DownloadUrlsEndWithModelFilenames | composeApp/src/commonMain/kotlin/ovh/devcraft/vogonpoet/infrastructure/GitHubModelRepositoryClient.kt:203-222 | the URLs are raw.githubusercontent.com/<owner>/<repo>/main/<path>/<model>/ followed by the model's ONNX and TFLite file names |
| GitHubPattern.FindFrom | composeApp/src/commonMain/kotlin/ovh/devcraft/vogonpoet/infrastructure/GitHubModelRepositoryClient.kt:230-239 | the search fails exactly when the pattern github.com/<owner>/<repo> matches at no position; otherwise it returns the two segments captured at the leftmost matching position, both non-empty and without '/' |
| GitHubPattern.FindOnCanonicalUrl | composeApp/src/commonMain/kotlin/ovh/devcraft/vogonpoet/infrastructure/GitHubModelRepositoryClient.kt:230-239 | on https://github.com/<owner>/<repo><tail> the leftmost match captures owner and repository |
| GitHubModels.ParseGitHubUrl | composeApp/src/commonMain/kotlin/ovh/devcraft/vogonpoet/infrastructure/GitHubModelRepositoryClient.kt:230-239 | parsing succeeds exactly when the pattern matches; the owner is the leftmost match's first segment and the repository its second segment with one trailing ".git" removed |
| GitHubModels.ParseCanonicalGitHubUrl | composeApp/src/commonMain/kotlin/ovh/devcraft/vogonpoet/infrastructure/GitHubModelRepositoryClient.kt:230-239 | a canonical repository URL parses to its owner and its repository minus one ".git" |
| GitHubModels.ParseCloneUrl | composeApp/src/commonMain/kotlin/ovh/devcraft/vogonpoet/infrastructure/GitHubModelRepositoryClient.kt:230-239 | a clone URL's ".git" is not part of the repository name |
| GitHubModels.FetchModelFromDirectory | composeApp/src/commonMain/kotlin/ovh/devcraft/vogonpoet/infrastructure/GitHubModelRepositoryClient.kt:91-160 | a model is returned exactly when the listing succeeded, holds an .onnx and a .tflite file, and either holds <model>.onnx and <model>.tflite or has a parseable versioned file of the model; it is unversioned exactly in the first case, else it takes the latest version |
| GitHubModels.DirectoryNeedsBothFileKinds | composeApp/src/commonMain/kotlin/ovh/devcraft/vogonpoet/infrastructure/GitHubModelRepositoryClient.kt:112-120 | a directory without a .tflite file yields no model |
| GitHubModels.Directories | composeApp/src/commonMain/kotlin/ovh/devcraft/vogonpoet/infrastructure/GitHubModelRepositoryClient.kt:69 | only entries of type dir are considered |
| GitHubModels.ModelsOfDirectories | composeApp/src/commonMain/kotlin/ovh/devcraft/vogonpoet/infrastructure/GitHubModelRepositoryClient.kt:72-76 | the models are the present results of fetching each directory, in directory order; a model is listed exactly when some directory yields it, and carries that directory's name and the source's language |
| GitHubModels.Somes | composeApp/src/commonMain/kotlin/ovh/devcraft/vogonpoet/infrastructure/GitHubModelRepositoryClient.kt:72-76 | `mapNotNull` keeps exactly the present values, never more than there are inputs |
| GitHubModels.FetchModels | composeApp/src/commonMain/kotlin/ovh/devcraft/vogonpoet/infrastructure/GitHubModelRepositoryClient.kt:43-84 | an unparsable URL is an "Invalid GitHub URL" error before any request; a failed listing gives the empty list; otherwise a model is returned exactly when some dir entry's fetch yields it |
| ModelDownload.InitialState | composeApp/src/jvmMain/kotlin/ovh/devcraft/vogonpoet/infrastructure/ModelDownloadService.kt:288-297 | a download starts at progress 0 with no bytes, neither complete nor failed, no error and "Starting download..." |
| ModelDownload.ModelDirectoryLayout | composeApp/src/jvmMain/kotlin/ovh/devcraft/vogonpoet/infrastructure/ModelDownloadService.kt:203 | two models share a directory exactly when they share language tag and name; the version plays no part |
| ModelDownload.StoredFilenamesOfVersionedModel | composeApp/src/jvmMain/kotlin/ovh/devcraft/vogonpoet/infrastructure/ModelDownloadService.kt:188-195 | for a versioned model the stored file names are its ONNX and TFLite file names |
| ModelDownload.StoredFilenamesOfUnversionedModel | composeApp/src/jvmMain/kotlin/ovh/devcraft/vogonpoet/infrastructure/ModelDownloadService.kt:188-195 | an unversioned model is stored as <name>_vnull.onnx, not as its ONNX file name |
| ModelDownload.ValidateDownloadedFiles | composeApp/src/jvmMain/kotlin/ovh/devcraft/vogonpoet/infrastructure/ModelDownloadService.kt:212-234 | validation passes iff both files exist and each has at least 1024 bytes |
| ModelDownload.CleanupEffect | composeApp/src/jvmMain/kotlin/ovh/devcraft/vogonpoet/infrastructure/ModelDownloadService.kt:259-273 | cleanup removes both files and no other, and removes the model directory only when it is then empty |
| ModelDownload.OnnxProgress | composeApp/src/jvmMain/kotlin/ovh/devcraft/vogonpoet/infrastructure/ModelDownloadService.kt:76-81 | ONNX progress is cur*50/total, between 0 and 50 for an honest length, and 0 when the total is unknown |
| ModelDownload.TfliteProgress | composeApp/src/jvmMain/kotlin/ovh/devcraft/vogonpoet/infrastructure/ModelDownloadService.kt:98-106 | TFLite progress is never above 99, between 50 and 99 for an honest length, and 50 when the total is unknown |
| ModelDownload.TfliteProgressValue | composeApp/src/jvmMain/kotlin/ovh/devcraft/vogonpoet/infrastructure/ModelDownloadService.kt:98-106 | for an honest length nothing wraps: the TFLite progress is 50 + cur*50/total capped at 99 |
| ModelDownload.RetryBehaviour | composeApp/src/jvmMain/kotlin/ovh/devcraft/vogonpoet/infrastructure/ModelDownloadService.kt:151-180 | a fetch succeeds iff one of 3 attempts does; after failed attempts it waits 1000 then 2000 ms and rethrows the last error; a first success waits nothing |
| ModelDownload.ModelDownloadService.DownloadFileWithProgress | composeApp/src/jvmMain/kotlin/ovh/devcraft/vogonpoet/infrastructure/ModelDownloadService.kt:151-180 | the fetch returns RetryFrom's result, records its delays, and stores the file only when it arrived |
| ModelDownload.ModelDownloadService.GetExistingModelSize | composeApp/src/jvmMain/kotlin/ovh/devcraft/vogonpoet/infrastructure/ModelDownloadService.kt:242-252 | the loop sums the lengths of the model's two files that exist, with Long wrap-around |
| ModelDownload.ModelDownloadService.CleanupPartialDownload | composeApp/src/jvmMain/kotlin/ovh/devcraft/vogonpoet/infrastructure/ModelDownloadService.kt:259-273 | the method changes the file system exactly as CleanupSpec says |
| ModelDownload.ModelDownloadService.DownloadFiles | composeApp/src/jvmMain/kotlin/ovh/devcraft/vogonpoet/infrastructure/ModelDownloadService.kt:68-127 | the try block writes the files and emits the states TrySpec gives |
| ModelDownload.ModelDownloadService.DownloadModel | composeApp/src/jvmMain/kotlin/ovh/devcraft/vogonpoet/infrastructure/ModelDownloadService.kt:42-140 | the flow emits DownloadSpec's states and leaves DownloadSpec's files and directories |
| ModelDownload.TryEmitsRunningStates | composeApp/src/jvmMain/kotlin/ovh/devcraft/vogonpoet/infrastructure/ModelDownloadService.kt:68-127 | the try block starts with the ONNX start state, emits only running states, and completes at 100 with no error |
| ModelDownload.DownloadEndsInOneTerminalState | composeApp/src/jvmMain/kotlin/ovh/devcraft/vogonpoet/infrastructure/ModelDownloadService.kt:42-140 | the flow starts with the initial state, and its last state, only, is terminal: complete at 100, or failed with "Download failed: <msg>" |
| ModelDownload.AlreadyDownloadedSkipsFetch | composeApp/src/jvmMain/kotlin/ovh/devcraft/vogonpoet/infrastructure/ModelDownloadService.kt:50-61 | an already downloaded model emits two states, the second complete at 100 with bytes equal to the sum of the existing lengths, and fetches nothing |
| ModelDownload.CompletedDownloadIsValid | composeApp/src/jvmMain/kotlin/ovh/devcraft/vogonpoet/infrastructure/ModelDownloadService.kt:114-126 | a download that completes leaves valid files in an existing directory |
| ModelDownload.FailedDownloadCleansUp | composeApp/src/jvmMain/kotlin/ovh/devcraft/vogonpoet/infrastructure/ModelDownloadService.kt:128-137 | a failed download removes both files, keeps every other file, and keeps the directory only if it is not empty |
| ModelDownload.TryProgressIsMonotone | composeApp/src/jvmMain/kotlin/ovh/devcraft/vogonpoet/infrastructure/ModelDownloadService.kt:76-126 | with honest lengths, progress in the try block stays below 100 and never decreases, and completion sets it to 100 |
| ModelDownload.ProgressIsMonotone | composeApp/src/jvmMain/kotlin/ovh/devcraft/vogonpoet/infrastructure/ModelDownloadService.kt:42-140 | with honest lengths, emitted progress never decreases and is 100 only when complete |
| Updates.Components | composeApp/src/jvmMain/kotlin/ovh/devcraft/vogonpoet/infrastructure/UpdateChecker.kt:129-130 | the components are the dot-separated parts, each read as an Int or 0 |
| Updates.CompareVersions | composeApp/src/jvmMain/kotlin/ovh/devcraft/vogonpoet/infrastructure/UpdateChecker.kt:125-137 | the loop returns the 32-bit wrap of the difference of the first differing components, and 0 when none differ |
| Updates.VersionOrderReflexive | composeApp/src/jvmMain/kotlin/ovh/devcraft/vogonpoet/infrastructure/UpdateChecker.kt:125-137 | a version compares equal to itself |
| Updates.VersionOrderAntisymmetric | composeApp/src/jvmMain/kotlin/ovh/devcraft/vogonpoet/infrastructure/UpdateChecker.kt:125-137 | swapping the versions negates the difference and its sign |
| Updates.MissingComponentIsZero | composeApp/src/jvmMain/kotlin/ovh/devcraft/vogonpoet/infrastructure/UpdateChecker.kt:131-133 | a missing component counts as 0, so "1.0" equals "1" |
| Updates.NonNumericComponentIsZero | composeApp/src/jvmMain/kotlin/ovh/devcraft/vogonpoet/infrastructure/UpdateChecker.kt:129-130 | a non-numeric component counts as 0, so "1.x" equals "1.0" |
| Updates.ComponentsAppend | composeApp/src/jvmMain/kotlin/ovh/devcraft/vogonpoet/infrastructure/UpdateChecker.kt:129-130 | appending ".x" adds one component, the value of x or 0 |
| Updates.CompareVersionsOverflow | composeApp/src/jvmMain/kotlin/ovh/devcraft/vogonpoet/infrastructure/UpdateChecker.kt:134 | with components 2147483647 and -1 the wrapped difference is negative both ways round |
| Updates.CompareVersionsExactWithoutNegatives | composeApp/src/jvmMain/kotlin/ovh/devcraft/vogonpoet/infrastructure/UpdateChecker.kt:134 | when no component is negative the 32-bit difference is exact |
| Updates.CompareVersionsCorrected | composeApp/src/jvmMain/kotlin/ovh/devcraft/vogonpoet/infrastructure/UpdateChecker.kt:125-137 | the corrected comparison returns the sign of the exact difference |
| Updates.RepositoryUrl | composeApp/src/jvmMain/kotlin/ovh/devcraft/vogonpoet/infrastructure/UpdateChecker.kt:8-26 | an explicit repositoryUrl wins; otherwise a vcs-url naming github.com gives https://<user>.github.io/<repo>/releases/latest/download; nothing else gives a URL |
| Updates.RepositoryUrlFromCanonicalVcs | composeApp/src/jvmMain/kotlin/ovh/devcraft/vogonpoet/infrastructure/UpdateChecker.kt:12-19 | a https://github.com/<user>/<repo> vcs-url gives the GitHub Pages download URL with the repository segment kept verbatim |
| Updates.CurrentVersion | composeApp/src/jvmMain/kotlin/ovh/devcraft/vogonpoet/infrastructure/UpdateChecker.kt:28-31 | the version is app.version, else app.version.from.conveyor, else "unknown" |
| Updates.CheckViaHttp | composeApp/src/jvmMain/kotlin/ovh/devcraft/vogonpoet/infrastructure/UpdateChecker.kt:93-123 | an update is reported iff the URL and the metadata's app.version exist and that version is newer, never as auto-updatable |
| Updates.NoUpdateToSameVersion | composeApp/src/jvmMain/kotlin/ovh/devcraft/vogonpoet/infrastructure/UpdateChecker.kt:93-123 | the same version as the current one is never an update |
| Updates.CheckViaControlApi | composeApp/src/jvmMain/kotlin/ovh/devcraft/vogonpoet/infrastructure/UpdateChecker.kt:63-91 | an update is reported iff both versions are known and the latest compares greater, as auto-updatable |
| Updates.CheckForUpdate | composeApp/src/jvmMain/kotlin/ovh/devcraft/vogonpoet/infrastructure/UpdateChecker.kt:38-61 | with a controller the Control API decides, without one the HTTP path; auto-update follows the controller |
| VogonConfigModel.DefaultConfig | composeApp/src/commonMain/kotlin/ovh/devcraft/vogonpoet/domain/model/VogonConfig.kt:3-81 | the defaults: device auto with auto-detect, 400/100 ms pipeline, 100 ms ghost throttle and tier auto, 127.0.0.1:8123, Ctrl+Space and Left Ctrl, UI flags, and null optional fields |
| ConfigMapper.ToDomain | composeApp/src/commonMain/kotlin/ovh/devcraft/vogonpoet/infrastructure/mapper/VogonConfigMapper.kt:6-99 | every absent section and nested section maps to its domain default |
| ConfigMapper.EmptyDocumentGivesDefaults | composeApp/src/commonMain/kotlin/ovh/devcraft/vogonpoet/infrastructure/mapper/VogonConfigMapper.kt:6-99 | a document with no sections maps to the default configuration |
| ConfigMapper.ToInfrastructure | composeApp/src/commonMain/kotlin/ovh/devcraft/vogonpoet/infrastructure/mapper/VogonConfigMapper.kt:101-194 | every section and nested section is present, and the strategy is written as its value string |
| ConfigMapper.StrategyNamed | composeApp/src/commonMain/kotlin/ovh/devcraft/vogonpoet/infrastructure/mapper/VogonConfigMapper.kt:45 | a known value names its strategy; any other string is CLIPBOARD |
| ConfigMapper.StrategyRoundTrip | composeApp/src/commonMain/kotlin/ovh/devcraft/vogonpoet/infrastructure/mapper/VogonConfigMapper.kt:45 | a strategy's value names that strategy |
| ConfigMapper.DomainRoundTrip | composeApp/src/commonMain/kotlin/ovh/devcraft/vogonpoet/infrastructure/mapper/VogonConfigMapper.kt:6-194 | mapping a configuration out and back gives it unchanged |
| ConfigMapper.InfrastructureRoundTrip | composeApp/src/commonMain/kotlin/ovh/devcraft/vogonpoet/infrastructure/mapper/VogonConfigMapper.kt:6-194 | a complete document with a known strategy maps in and back unchanged |
| ConfigMapper.UnknownStrategyIsNormalised | composeApp/src/commonMain/kotlin/ovh/devcraft/vogonpoet/infrastructure/mapper/VogonConfigMapper.kt:45 | a complete document with an unknown strategy comes back identical except for the strategy, now "clipboard" |
| Presentation.FirstPresent | composeApp/src/commonMain/kotlin/ovh/devcraft/vogonpoet/presentation/MainViewModel.kt:62-66 | a first remote config exists iff some remote value is non-null |
| Presentation.PresentDraftKept | composeApp/src/commonMain/kotlin/ovh/devcraft/vogonpoet/presentation/MainViewModel.kt:62-66 | a non-null draft is never overwritten by remote configs |
| Presentation.DraftIsFirstRemote | composeApp/src/commonMain/kotlin/ovh/devcraft/vogonpoet/presentation/MainViewModel.kt:62-66 | starting from no draft, the draft becomes the first non-null remote config |
| Presentation.MainViewModel.constructor | composeApp/src/commonMain/kotlin/ovh/devcraft/vogonpoet/presentation/MainViewModel.kt:36-59 | construction calls connect exactly once and starts with no draft, count 0 and "Transcribing..." |
| Presentation.MainViewModel.RemoteConfigChanged | composeApp/src/commonMain/kotlin/ovh/devcraft/vogonpoet/presentation/MainViewModel.kt:62-66 | a remote config is copied into the draft only when the draft is null and the config is not |
| Presentation.MainViewModel.ServerStatusChanged | composeApp/src/commonMain/kotlin/ovh/devcraft/vogonpoet/presentation/MainViewModel.kt:70-76 | INITIALIZING resets count, text and draft; any other status changes none of them |
| Presentation.MainViewModel.VadChanged | composeApp/src/commonMain/kotlin/ovh/devcraft/vogonpoet/presentation/MainViewModel.kt:80-88 | each Listening increments the count; up to 10 the text is "Transcribing...", afterwards one of allPossibleStates |
| Presentation.MainViewModel.UpdateDraft | composeApp/src/commonMain/kotlin/ovh/devcraft/vogonpoet/presentation/MainViewModel.kt:93-95 | the draft is replaced and nothing else changes |
| Presentation.MainViewModel.Reconnect | composeApp/src/commonMain/kotlin/ovh/devcraft/vogonpoet/presentation/MainViewModel.kt:97-101 | reconnecting calls connect once more |
| Presentation.MainViewModel.RestartBackend | composeApp/src/commonMain/kotlin/ovh/devcraft/vogonpoet/presentation/MainViewModel.kt:103-106 | the backend is restarted once |
| Presentation.MainViewModel.SaveConfig | composeApp/src/commonMain/kotlin/ovh/devcraft/vogonpoet/presentation/MainViewModel.kt:108-119 | a null configuration saves nothing; otherwise it is saved |
| Presentation.MainViewModel.SaveDraft | composeApp/src/commonMain/kotlin/ovh/devcraft/vogonpoet/presentation/MainViewModel.kt:108-119 | saving with no argument saves the draft, and nothing when the draft is null; no other state changes |
| Presentation.MainViewModel.LoadMicrophones | composeApp/src/commonMain/kotlin/ovh/devcraft/vogonpoet/presentation/MainViewModel.kt:121-131 | the microphone list changes only when the client call succeeds |
| Presentation.MainViewModel.LoadHardware | composeApp/src/commonMain/kotlin/ovh/devcraft/vogonpoet/presentation/MainViewModel.kt:133-143 | the hardware list changes only when the client call succeeds |
| Presentation.MainViewModel.LoadWakewords | composeApp/src/commonMain/kotlin/ovh/devcraft/vogonpoet/presentation/MainViewModel.kt:145-155 | the wakeword list changes only when the client call succeeds |
| Presentation.MainViewModel.ToggleMicTest | composeApp/src/commonMain/kotlin/ovh/devcraft/vogonpoet/presentation/MainViewModel.kt:157-167 | the request is sent and isMicTesting changes only when it succeeds |
| Presentation.MainViewModel.SaveAndRestart | composeApp/src/commonMain/kotlin/ovh/devcraft/vogonpoet/presentation/MainViewModel.kt:169-184 | the draft is set first, the config saved, and the backend restarted even when the save fails |
| DependencyGraph.Exact | gradle/scripts/dot-dependency-graph.gradle.kts:54-56 | an exact key is found iff some entry has it, and the label comes from such an entry |
| DependencyGraph.GroupMatch | gradle/scripts/dot-dependency-graph.gradle.kts:59-64 | a group match finds the first entry whose key has no ':' and equals the group or prefixes it with a dot |
| DependencyGraph.LabelResolution | gradle/scripts/dot-dependency-graph.gradle.kts:47-64 | a label is found iff an exact group:name key or a group key matches, and an exact key wins |
| DependencyGraph.SerializationResolvesExactly | gradle/scripts/dot-dependency-graph.gradle.kts:15-23 | kotlinx-serialization-json resolves to Serialization by its exact key |
| DependencyGraph.WebRtcResolvesByGroup | gradle/scripts/dot-dependency-graph.gradle.kts:15-23 | any module of dev.onvoid.webrtc or a sub-group resolves to WebRTC Java |
| DependencyGraph.UnlistedModulesUnresolved | gradle/scripts/dot-dependency-graph.gradle.kts:15-23 | a look-alike group and an unlisted module resolve to nothing |
| DependencyGraph.GraphCollector.Collect | gradle/scripts/dot-dependency-graph.gradle.kts:25-73 | a visited project changes nothing; otherwise it is visited and expanded, and every new edge is a dependency of a newly visited project |
| DependencyGraph.GraphCollector.ExpandProject | gradle/scripts/dot-dependency-graph.gradle.kts:29-71 | after expansion every dependency of every configuration is handled and an application project is an entry point |
| DependencyGraph.GraphCollector.ExpandProjectDependencies | gradle/scripts/dot-dependency-graph.gradle.kts:35-43 | each project dependency other than the project itself gets its edge and is collected; no self-edge is added |
| DependencyGraph.GraphCollector.ExpandExternalModules | gradle/scripts/dot-dependency-graph.gradle.kts:46-71 | each external module with a group and a label gets its edge and its third-party node; every node added is the label of one of the project's external modules, so null groups and unlabelled modules add nothing, and no project is visited |
| DependencyGraph.GraphCollector.CollectFrom | gradle/scripts/dot-dependency-graph.gradle.kts:75-79 | every root is visited and the collected graph holds only dependencies of visited projects |
| DependencyGraph.WalkIsClosed | gradle/scripts/dot-dependency-graph.gradle.kts:25-43 | after the walk every project dependency of a visited project is visited and, unless it is itself, linked by an edge |
| DependencyGraph.WalkCharacterised | gradle/scripts/dot-dependency-graph.gradle.kts:25-79 | a finished walk visited a set that holds the roots and every project dependency of its members, and collected exactly its members' dependency edges, library labels and application projects |
| DependencyGraph.NoLibrariesWithoutTracking | gradle/scripts/mermaid-dependency-graph.gradle.kts:15-27 | the project-only walk records no third-party node and no entry point |
| DependencyGraph.SortBy | gradle/scripts/dot-dependency-graph.gradle.kts:93 | sorting gives the same elements, each once, in key order |
| DependencyGraph.SortedStringsUnique | gradle/scripts/dot-dependency-graph.gradle.kts:93 | two sorted, duplicate-free orderings of the same strings are equal, so the output order is determined |
| DependencyGraph.QuotedLines | gradle/scripts/dot-dependency-graph.gradle.kts:91-108 | one quoted line per entry point (with the highlight fill colour) and per third-party node (plain), in order |
| DependencyGraph.DotEdgeLines | gradle/scripts/dot-dependency-graph.gradle.kts:110-112 | one arrow line per edge, in order |
| DependencyGraph.GenerateDot | gradle/scripts/dot-dependency-graph.gradle.kts:81-114 | for some project set V holding the roots and closed under project dependencies, the printed edges are exactly the dependency edges of V's projects, the nodes exactly the labels of their external modules, the entry points exactly their application projects; each list sorted, each once, in the DOT layout |
| DependencyGraph.MermaidId | gradle/scripts/mermaid-dependency-graph.gradle.kts:38-39 | the id drops one leading ':' and turns each ':' and '-' into '_', keeping every other character |
| DependencyGraph.EmptyIdIsRoot | gradle/scripts/mermaid-dependency-graph.gradle.kts:38-39 | only the empty or ":" path gives an empty id, and only a source id falls back to "root" |
| DependencyGraph.IdsCanCollide | gradle/scripts/mermaid-dependency-graph.gradle.kts:38-39 | ":a-b" and ":a:b" get the same id a_b |
| DependencyGraph.MermaidEdgeLines | gradle/scripts/mermaid-dependency-graph.gradle.kts:40 | one line per edge, source id --> target id, in order |
| DependencyGraph.GenerateMermaid | gradle/scripts/mermaid-dependency-graph.gradle.kts:12-42 | for some project set V holding the roots and closed under project dependencies, the edges are exactly the project dependency edges of V's projects to other projects, sorted by from-->to, each once, printed with sanitised ids |
| DependencyGraph.ProjectEdge | gradle/scripts/mermaid-dependency-graph.gradle.kts:21-24 | a project edge never points at its source and always at a project of the build |

## Left out

- Transport and TLS are not modelled: aioquic, H3 framing, certificate generation, `serve` and `main`. Frames, probe output, exit codes and exceptions are inputs, and the handoff (`subprocess.call` or `execvp`) is a terminal outcome.
- Sleeps and delays in the bootstrap helper are not modelled. Download retry delays are recorded as a list of milliseconds.
- A failing `send_stream_data` in `_send_update` is not modelled: the aioquic call is taken to succeed (for the one write that always fails, see the next line).
- Bootstrap.ExceptionIsReportedLast: the wire records the calls the helper makes, not what reaches the client. After a failed handoff the "Error: <e>" write follows the FIN and the connection close, as the lemma states. aioquic refuses data after the FIN and `_send_update` logs and swallows that refusal, so this report is never delivered. The refusal is not modelled.
- Bootstrap.VramOfMembers: a figure is a stripped line of ASCII digits. Python's `str.isdigit` also accepts other Unicode digits. `int()` reads some of them (Arabic-Indic digits) and raises on others (superscripts), which sends the probe to CPU mode. So for the output "8000\n²" the helper picks CPU and the model picks NVIDIA.
- Bytes that are not valid UTF-8 in the subprocess output are not modelled. Output is given as lines of text.
- Only the state effects of the WebSocket connect and retry loop in `BabelfishClient.connect` are modelled (`Connect`, `BeginAttempt`, `SessionOpened`, `SessionEnded`, `ServerStatusChanged`). The coroutine loop, its delays and its cancellation are not.
- JSON parsing and the `Babelfish` document decoder are parameters of the client model (`parse` and `decode`). The decoders of the microphone, hardware and wakeword lists are not modelled; their results are inputs to the view model.
- SharedFlow emission timing and StateFlow conflation are not modelled. Events are an ordered list.
- Double-valued configuration fields (VRAM, sensitivities) are carried as opaque values that are only copied.
- Presentation.MainViewModel.VadChanged: the activation counter is a `nat`, so its 32-bit wrap-around after 2^31 activations is not modelled.
- Presentation.MainViewModel.VadChanged: `Random` picks the text after ten activations. It is modelled as a nondeterministic choice made inside `VadChanged` (`var i :| …`), limited to `allPossibleStates` by `Valid()`; which element `Random` yields is not modelled.
- The `vogonLoadingStrings` list is a constructor parameter.
- ModelDownload.OnnxProgress: the ONNX-phase percentage is not capped. Its bounds hold only when the received size does not exceed a known Content-Length, which `ProgressIsMonotone` assumes as `HonestLengths`.
- DependencyGraph.GenerateDot: the visited set V is stated to hold the roots and to be closed under project dependencies, not to be the least such set (that every visited project is reachable from a root).
- DependencyGraph.GenerateMermaid: the same holds for its visited set V.
- Paths are sequences of names joined by "/". Platform path rendering is not modelled.
- Kotlin's `toIntOrNull` also accepts non-ASCII decimal digits. Only ASCII digits are modelled.
- Kotlin's string ordering is modelled as lexicographic order on characters (`LexLessEq`), which compares Unicode scalar values. Kotlin's `compareTo` compares UTF-16 code units, so the two orders disagree between a character above U+FFFF (a surrogate pair starting at U+D800) and a character in U+E000-U+FFFF; sorting by the model's order differs there. The order among elements with equal keys is not modelled: `SortBy` may put them in any order, and its contract states only what every such order shares. For sets of strings sorted by themselves the output is unique (`DependencyGraph.SortedStringsUnique`).
- The Mermaid script's visited set holds `Project` objects. The model keys it by project path, which identifies a project in a Gradle build.
- Updates.CheckViaHttp: it is stated with the exact version order (the corrected comparison) rather than the 32-bit `compareVersions` result. The two agree whenever no component is negative (`Updates.CompareVersionsExactWithoutNegatives`).
- Updates.CheckViaControlApi: the Control API's `compareTo` on versions is an external function parameter.
- The other files of the repository are not part of this model: the Compose UI, dependency injection, backend process management, settings I/O and packaging scripts.

## Findings

| source | as written | input that shows it | evidently intended | confidence | as-written member | corrected member |
|---|---|---|---|---|---|---|
| composeApp/src/jvmMain/kotlin/ovh/devcraft/vogonpoet/infrastructure/UpdateChecker.kt:134 | `compareVersions` returns `ad - bd` in 32-bit `Int`, and `toIntOrNull` accepts a leading '-' | `compareVersions("2147483647", "-1")` and `compareVersions("-1", "2147483647")` are both negative, so each version is older than the other | the sign of the exact difference of the first differing components | not executed | Updates.CompareVersionsOverflow | Updates.CompareVersionsCorrected |
