/** The desktop side of the status protocol: `BabelfishClient`, which turns
    incoming JSON frames into connection, VAD and engine-mode state and keeps
    a bounded protocol log, and `KwBabelfishClient`, a small
    connect/disconnect state machine over a transport endpoint. */
module Client {
  import opened Wrappers
  import opened Text
  import StatusFrame
  import Bootstrap
  import ConfigMapper

  // ------------------------------------------------------------ domain types

  datatype ConnectionState =
    | Disconnected
    | Connecting
    | Bootstrapping(message: string)
    | BabelfishRestarting
    | Connected
    | Error(message: string)

  datatype VadState = Idle | Listening

  datatype EngineMode = Wakeword | Active

  datatype EngineEvent = WakewordDetected | StopWordDetected

  datatype ServerStatus = Stopped | Initializing | BootstrappingServer | Starting | Ready

  datatype MessageDirection = Sent | Received

  datatype ProtocolMessage = ProtocolMessage(timestamp: int, direction: MessageDirection, content: string)

  /** A parsed JSON element. Strings, numbers and booleans are primitives
      whose `content` is their text; JSON null is a primitive without content. */
  datatype Json =
    | Primitive(content: string)
    | Null
    | Array(items: seq<Json>)
    | Object(fields: map<string, Json>)

  type JsonObject = map<string, Json>

  /** A `CompletableDeferred` waiting for a response frame. */
  datatype Deferred = Pending | Completed(response: JsonObject)

  /** One text frame written to the WebSocket session with id `session`. */
  datatype Outgoing = Outgoing(session: nat, text: string)

  const LogCapacity: nat := 100
  const EngineReady: string := "Engine Ready!"
  const StartingBabelfish: string := "Starting Babelfish..."
  const NotConnected: string := "Not connected"
  const TimedOut: string := "Timed out waiting for the response"
  const HelloMessage: string := "{\"type\":\"hello\"}"

  // --------------------------------------------------------- reading fields

  /** `element[key]?.jsonPrimitive?.contentOrNull`: a missing key or a JSON
      null reads as null, a primitive as its content, and an array or object
      throws. */
  function ContentOrNull(fields: JsonObject, key: string): (r: Result<Option<string>, string>)
    ensures r.Failure? <==> key in fields && (fields[key].Array? || fields[key].Object?)
    ensures r == Success(None) <==> key !in fields || fields[key] == Null
  {
    if key !in fields then Success(None)
    else match fields[key]
      case Primitive(c) => Success(Some(c))
      case Null => Success(None)
      case _ => Failure("Element " + key + " is not a JsonPrimitive")
  }

  // ------------------------------------------------- the client's view state

  /** Everything an incoming frame can change. */
  datatype ClientView = ClientView(
    connection: ConnectionState,
    vad: VadState,
    mode: EngineMode,
    events: seq<EngineEvent>,
    config: Option<ConfigMapper.Babelfish>,
    handlers: map<string, Deferred>,
    closeRequests: nat)

  /** `responseHandlers[type]?.complete(element)`: a deferred completes once;
      completing one that is already complete changes nothing. */
  function Complete(handlers: map<string, Deferred>, t: string, response: JsonObject): map<string, Deferred>
  {
    if t in handlers && handlers[t].Pending? then handlers[t := Completed(response)] else handlers
  }

  function VadFrom(vadState: Option<string>, current: VadState): VadState
  {
    if vadState == Some("listening") then Listening
    else if vadState == Some("idle") then Idle
    else current
  }

  function ModeFrom(mode: Option<string>, current: EngineMode): EngineMode
  {
    if mode == Some("wakeword") then Wakeword
    else if mode == Some("active") then Active
    else current
  }

  predicate SignalsReady(message: Option<string>, vadState: Option<string>, engineState: Option<string>)
  {
    vadState == Some("listening") || vadState == Some("idle") || engineState == Some("ready")
    || message == Some(EngineReady)
  }

  /** A status frame whose four fields were read without error. */
  function ShowStatus(v: ClientView, message: Option<string>, vadState: Option<string>,
                      engineState: Option<string>, mode: Option<string>): ClientView
  {
    if SignalsReady(message, vadState, engineState) then
      v.(connection := Connected, vad := VadFrom(vadState, v.vad), mode := ModeFrom(mode, v.mode))
    else if message.Some? then
      v.(connection := Bootstrapping(message.value),
         closeRequests := if Contains(message.value, StartingBabelfish) then v.closeRequests + 1 else v.closeRequests)
    else v
  }

  /** A "status" frame; a field that is an array or object throws before any
      state is touched. */
  function StatusEffect(v: ClientView, fields: JsonObject): ClientView
  {
    var message := ContentOrNull(fields, "message");
    var vadState := ContentOrNull(fields, "vad_state");
    var engineState := ContentOrNull(fields, "engine_state");
    var mode := ContentOrNull(fields, "mode");
    if message.Failure? || vadState.Failure? || engineState.Failure? || mode.Failure? then v
    else ShowStatus(v, message.value, vadState.value, engineState.value, mode.value)
  }

  function EventFor(name: string): seq<EngineEvent>
  {
    if name == "wakeword_detected" then [WakewordDetected]
    else if name == "stop_word_detected" then [StopWordDetected]
    else []
  }

  /** An "event" frame. */
  function EventEffect(v: ClientView, fields: JsonObject): ClientView
  {
    match ContentOrNull(fields, "event")
    case Success(Some(name)) => v.(connection := Connected, events := v.events + EventFor(name))
    case _ => v
  }

  /** A "config" frame; `decode` is the serialisation library's decoding of
      the `data` element, which may throw. */
  function ConfigEffect(v: ClientView, fields: JsonObject,
                        decode: Json -> Result<ConfigMapper.Babelfish, string>): ClientView
  {
    if "data" in fields then
      match decode(fields["data"])
      case Success(c) => v.(config := Some(c))
      case Failure(_) => v
    else v
  }

  /** The effect of one parsed element. */
  function React(v: ClientView, element: Json, decode: Json -> Result<ConfigMapper.Babelfish, string>): ClientView
  {
    match element
    case Object(fields) =>
      (match ContentOrNull(fields, "type")
       case Success(Some(t)) =>
         var completed := v.(handlers := Complete(v.handlers, t, fields));
         if t == "config" then ConfigEffect(completed, fields, decode)
         else if t == "status" then StatusEffect(completed, fields)
         else if t == "event" then EventEffect(completed, fields)
         else completed
       case _ => v)
    case _ => v
  }

  /** The effect of one incoming text line on the view; `parse` is the JSON
      library's parser, which may throw. */
  function HandleLine(v: ClientView, line: string, parse: string -> Result<Json, string>,
                      decode: Json -> Result<ConfigMapper.Babelfish, string>): ClientView
  {
    if IsBlank(line) then v
    else match parse(line)
      case Success(element) => React(v, element, decode)
      case Failure(_) => v
  }

  /** Lines handled one after another, in arrival order. */
  function HandleLines(v: ClientView, lines: seq<string>, parse: string -> Result<Json, string>,
                       decode: Json -> Result<ConfigMapper.Babelfish, string>): ClientView
    decreases |lines|
  {
    if |lines| == 0 then v
    else HandleLine(HandleLines(v, lines[..|lines| - 1], parse, decode), lines[|lines| - 1], parse, decode)
  }

  // ------------------------------------------------------- the protocol log

  /** `takeLast(100)`. */
  function LastEntries(history: seq<ProtocolMessage>): (r: seq<ProtocolMessage>)
    ensures |r| == if |history| <= LogCapacity then |history| else LogCapacity
    ensures r == history[|history| - |r|..]
  {
    if |history| <= LogCapacity then history else history[|history| - LogCapacity..]
  }

  /** Trimming after every append keeps exactly the latest 100 entries of
      the whole history, oldest first. */
  lemma LogWindow(history: seq<ProtocolMessage>, m: ProtocolMessage)
    ensures LastEntries(LastEntries(history) + [m]) == LastEntries(history + [m])
    ensures |LastEntries(history + [m])| <= LogCapacity
    ensures LastEntries(history + [m])[|LastEntries(history + [m])| - 1] == m
  {
    var h := history + [m];
    if |history| > LogCapacity {
      var kept := history[|history| - LogCapacity..];
      assert (kept + [m])[1..] == h[|h| - LogCapacity..];
    }
  }

  // ------------------------------------------------------ the client object

  class BabelfishClient {
    var connectionState: ConnectionState
    var vadState: VadState
    var engineMode: EngineMode
    var events: seq<EngineEvent>
    var messages: seq<ProtocolMessage>
    ghost var history: seq<ProtocolMessage>
    var config: Option<ConfigMapper.Babelfish>
    var session: Option<nat>
    var outbox: seq<Outgoing>
    var responseHandlers: map<string, Deferred>
    var closeRequests: nat
    var connectionJob: bool

    /** The log shows the latest entries of everything ever logged. */
    ghost predicate Valid()
      reads this
    {
      messages == LastEntries(history)
    }

    function View(): ClientView
      reads this
    {
      ClientView(connectionState, vadState, engineMode, events, config, responseHandlers, closeRequests)
    }

    constructor ()
      ensures Valid()
      ensures View() == ClientView(Disconnected, Idle, Wakeword, [], None, map[], 0)
      ensures messages == [] && session.None? && outbox == [] && !connectionJob
    {
      connectionState := Disconnected;
      vadState := Idle;
      engineMode := Wakeword;
      events := [];
      messages := [];
      history := [];
      config := None;
      session := None;
      outbox := [];
      responseHandlers := map[];
      closeRequests := 0;
      connectionJob := false;
    }

    /** Appends one entry and trims the log to its latest 100 entries. */
    method LogMessage(direction: MessageDirection, content: string, now: int)
      requires Valid()
      modifies this
      ensures Valid()
      ensures history == old(history) + [ProtocolMessage(now, direction, content)]
      ensures messages == LastEntries(old(messages) + [ProtocolMessage(now, direction, content)])
      ensures View() == old(View())
      ensures session == old(session) && outbox == old(outbox) && connectionJob == old(connectionJob)
    {
      var entry := ProtocolMessage(now, direction, content);
      LogWindow(history, entry);
      history := history + [entry];
      var appended := messages + [entry];
      if |appended| <= LogCapacity {
        messages := appended;
      } else {
        messages := appended[|appended| - LogCapacity..];
      }
    }

    method ReceiveStatus(fields: JsonObject)
      modifies this
      ensures View() == StatusEffect(old(View()), fields)
      ensures messages == old(messages) && history == old(history)
      ensures session == old(session) && outbox == old(outbox) && connectionJob == old(connectionJob)
    {
      var message := ContentOrNull(fields, "message");
      var vadField := ContentOrNull(fields, "vad_state");
      var engineState := ContentOrNull(fields, "engine_state");
      var modeField := ContentOrNull(fields, "mode");
      if message.Failure? || vadField.Failure? || engineState.Failure? || modeField.Failure? {
        return;
      }
      if SignalsReady(message.value, vadField.value, engineState.value) {
        connectionState := Connected;
        if vadField.value == Some("listening") {
          vadState := Listening;
        } else if vadField.value == Some("idle") {
          vadState := Idle;
        }
        if modeField.value == Some("wakeword") {
          engineMode := Wakeword;
        } else if modeField.value == Some("active") {
          engineMode := Active;
        }
      } else if message.value.Some? {
        connectionState := Bootstrapping(message.value.value);
        if Contains(message.value.value, StartingBabelfish) {
          closeRequests := closeRequests + 1;
        }
      }
    }

    method ReceiveEvent(fields: JsonObject)
      modifies this
      ensures View() == EventEffect(old(View()), fields)
      ensures messages == old(messages) && history == old(history)
      ensures session == old(session) && outbox == old(outbox) && connectionJob == old(connectionJob)
    {
      var eventName := ContentOrNull(fields, "event");
      if eventName.Success? && eventName.value.Some? {
        connectionState := Connected;
        var name := eventName.value.value;
        if name == "wakeword_detected" {
          events := events + [WakewordDetected];
        } else if name == "stop_word_detected" {
          events := events + [StopWordDetected];
        }
      }
    }

    method ReceiveConfig(fields: JsonObject, decode: Json -> Result<ConfigMapper.Babelfish, string>)
      modifies this
      ensures View() == ConfigEffect(old(View()), fields, decode)
      ensures messages == old(messages) && history == old(history)
      ensures session == old(session) && outbox == old(outbox) && connectionJob == old(connectionJob)
    {
      if "data" in fields {
        var decoded := decode(fields["data"]);
        if decoded.Success? {
          config := Some(decoded.value);
        }
      }
    }

    /** `handleIncomingLine`: a non-blank line is logged as received before
        it is parsed; parse and field errors are swallowed. */
    method HandleIncomingLine(line: string, parse: string -> Result<Json, string>,
                              decode: Json -> Result<ConfigMapper.Babelfish, string>, now: int)
      requires Valid()
      modifies this
      ensures Valid()
      ensures View() == HandleLine(old(View()), line, parse, decode)
      ensures messages == if IsBlank(line) then old(messages)
                          else LastEntries(old(messages) + [ProtocolMessage(now, Received, line)])
      ensures session == old(session) && outbox == old(outbox) && connectionJob == old(connectionJob)
    {
      if IsBlank(line) {
        return;
      }
      LogMessage(Received, line, now);
      var parsed := parse(line);
      if parsed.Failure? || !parsed.value.Object? {
        return;
      }
      var fields := parsed.value.fields;
      var typeField := ContentOrNull(fields, "type");
      if typeField.Failure? || typeField.value.None? {
        return;
      }
      var t := typeField.value.value;
      if t in responseHandlers && responseHandlers[t].Pending? {
        responseHandlers := responseHandlers[t := Completed(fields)];
      }
      if t == "config" {
        ReceiveConfig(fields, decode);
      } else if t == "status" {
        ReceiveStatus(fields);
      } else if t == "event" {
        ReceiveEvent(fields);
      }
    }

    /** `disconnect`: cancels the connection job and resets the state. */
    method Disconnect()
      modifies this
      ensures connectionState == Disconnected && vadState == Idle && engineMode == Wakeword
      ensures session.None? && !connectionJob
      ensures events == old(events) && messages == old(messages) && history == old(history)
      ensures config == old(config) && responseHandlers == old(responseHandlers)
      ensures outbox == old(outbox) && closeRequests == old(closeRequests)
    {
      connectionJob := false;
      connectionState := Disconnected;
      vadState := Idle;
      engineMode := Wakeword;
      session := None;
    }

    /** `connect`: starts the connection job unless one is active. */
    method Connect()
      modifies this
      ensures connectionJob
      ensures View() == old(View()) && session == old(session) && outbox == old(outbox)
      ensures messages == old(messages) && history == old(history)
    {
      if connectionJob {
        return;
      }
      connectionJob := true;
    }

    /** The server-status monitor inside the connection job. */
    method ServerStatusChanged(status: ServerStatus)
      modifies this
      ensures connectionState == AfterServerStatus(old(connectionState), status)
      ensures vadState == old(vadState) && engineMode == old(engineMode) && events == old(events)
      ensures config == old(config) && responseHandlers == old(responseHandlers) && closeRequests == old(closeRequests)
      ensures session == old(session) && outbox == old(outbox) && connectionJob == old(connectionJob)
      ensures messages == old(messages) && history == old(history)
    {
      match status
      case Initializing =>
        connectionState := Disconnected;
      case Starting =>
        connectionState := BabelfishRestarting;
      case Stopped =>
        if !connectionState.Error? {
          connectionState := Disconnected;
        }
      case _ =>
    }

    /** A connection attempt of the connection loop begins. */
    method BeginAttempt()
      modifies this
      ensures connectionState == Connecting
      ensures vadState == old(vadState) && engineMode == old(engineMode) && events == old(events)
      ensures config == old(config) && responseHandlers == old(responseHandlers) && closeRequests == old(closeRequests)
      ensures session == old(session) && outbox == old(outbox) && connectionJob == old(connectionJob)
      ensures messages == old(messages) && history == old(history)
    {
      connectionState := Connecting;
    }

    /** The WebSocket session `id` is open: the state says which server
        answered, and the hello frame is sent and logged. */
    method SessionOpened(id: nat, status: ServerStatus, now: int)
      requires Valid()
      modifies this
      ensures Valid()
      ensures session == Some(id)
      ensures connectionState == Bootstrapping(if status == Ready then "Starting engines..." else "Connected to bootstrap...")
      ensures outbox == old(outbox) + [Outgoing(id, HelloMessage)]
      ensures messages == LastEntries(old(messages) + [ProtocolMessage(now, Sent, HelloMessage)])
      ensures vadState == old(vadState) && engineMode == old(engineMode) && events == old(events)
      ensures config == old(config) && responseHandlers == old(responseHandlers) && closeRequests == old(closeRequests)
      ensures connectionJob == old(connectionJob)
    {
      session := Some(id);
      if status == Ready {
        connectionState := Bootstrapping("Starting engines...");
      } else {
        connectionState := Bootstrapping("Connected to bootstrap...");
      }
      outbox := outbox + [Outgoing(id, HelloMessage)];
      LogMessage(Sent, HelloMessage, now);
    }

    /** The session ended, normally or by an error. */
    method SessionEnded()
      modifies this
      ensures session.None?
      ensures View() == old(View()) && outbox == old(outbox) && connectionJob == old(connectionJob)
      ensures messages == old(messages) && history == old(history)
    {
      session := None;
    }

    /** The guard every send shares: without a session it fails with
        "Not connected" and changes nothing; otherwise the frame is sent on
        the session and logged. */
    method SendOnSession(message: string, now: int) returns (r: Result<(), string>)
      requires Valid()
      modifies this
      ensures Valid()
      ensures r.Failure? <==> old(session).None?
      ensures r.Failure? ==> r.error == NotConnected && outbox == old(outbox) && messages == old(messages)
                             && history == old(history)
      ensures r.Success? ==> outbox == old(outbox) + [Outgoing(old(session).value, message)]
                             && messages == LastEntries(old(messages) + [ProtocolMessage(now, Sent, message)])
      ensures View() == old(View()) && session == old(session) && connectionJob == old(connectionJob)
    {
      if session.None? {
        return Failure(NotConnected);
      }
      outbox := outbox + [Outgoing(session.value, message)];
      LogMessage(Sent, message, now);
      r := Success(());
    }

    /** `saveConfig`; `configJson` is the library's serialisation of the
        configuration. */
    method SaveConfig(configJson: string, now: int) returns (r: Result<(), string>)
      requires Valid()
      modifies this
      ensures Valid()
      ensures r.Failure? <==> old(session).None?
      ensures r.Failure? ==> r.error == NotConnected && outbox == old(outbox) && messages == old(messages)
      ensures r.Success? ==> outbox == old(outbox) + [Outgoing(old(session).value, UpdateConfigMessage(configJson))]
      ensures View() == old(View()) && session == old(session)
    {
      r := SendOnSession(UpdateConfigMessage(configJson), now);
    }

    method SetMicTest(enabled: bool, now: int) returns (r: Result<(), string>)
      requires Valid()
      modifies this
      ensures Valid()
      ensures r.Failure? <==> old(session).None?
      ensures r.Failure? ==> r.error == NotConnected && outbox == old(outbox) && messages == old(messages)
      ensures r.Success? ==> outbox == old(outbox) + [Outgoing(old(session).value, MicTestMessage(enabled))]
      ensures View() == old(View()) && session == old(session)
    {
      r := SendOnSession(MicTestMessage(enabled), now);
    }

    method ForceListen(now: int) returns (r: Result<(), string>)
      requires Valid()
      modifies this
      ensures Valid()
      ensures r.Failure? <==> old(session).None?
      ensures r.Failure? ==> r.error == NotConnected && outbox == old(outbox) && messages == old(messages)
      ensures r.Success? ==> outbox == old(outbox) + [Outgoing(old(session).value, "{\"type\":\"force_listen\"}")]
      ensures View() == old(View()) && session == old(session)
    {
      r := SendOnSession("{\"type\":\"force_listen\"}", now);
    }

    method ToggleListening(now: int) returns (r: Result<(), string>)
      requires Valid()
      modifies this
      ensures Valid()
      ensures r.Failure? <==> old(session).None?
      ensures r.Failure? ==> r.error == NotConnected && outbox == old(outbox) && messages == old(messages)
      ensures r.Success? ==> outbox == old(outbox) + [Outgoing(old(session).value, "{\"type\":\"toggle_listening\"}")]
      ensures View() == old(View()) && session == old(session)
    {
      r := SendOnSession("{\"type\":\"toggle_listening\"}", now);
    }

    /** First half of `requestResponse`: without a session it fails before
        registering anything; otherwise a fresh deferred replaces any handler
        for `responseType` and the request is sent. */
    method BeginRequest(requestType: string, responseType: string, payload: string, now: int)
      returns (r: Result<(), string>)
      requires Valid()
      modifies this
      ensures Valid()
      ensures r.Failure? <==> old(session).None?
      ensures r.Failure? ==> r.error == NotConnected && View() == old(View()) && outbox == old(outbox)
      ensures r.Success? ==> responseHandlers == Register(old(responseHandlers), responseType)
                             && outbox == old(outbox) + [Outgoing(old(session).value, RequestText(requestType, payload))]
      ensures connectionState == old(connectionState) && events == old(events) && config == old(config)
      ensures session == old(session)
    {
      if session.None? {
        return Failure(NotConnected);
      }
      responseHandlers := Register(responseHandlers, responseType);
      r := SendOnSession(RequestText(requestType, payload), now);
    }

    /** Second half of `requestResponse`, once the response arrived or the
        timeout elapsed: the handler is removed either way. */
    method FinishRequest(responseType: string) returns (r: Result<JsonObject, string>)
      modifies this
      ensures (r, responseHandlers) == Finish(old(responseHandlers), responseType)
      ensures connectionState == old(connectionState) && events == old(events) && config == old(config)
      ensures session == old(session) && outbox == old(outbox) && messages == old(messages) && history == old(history)
    {
      if responseType in responseHandlers && responseHandlers[responseType].Completed? {
        r := Success(responseHandlers[responseType].response);
      } else {
        r := Failure(TimedOut);
      }
      responseHandlers := responseHandlers - {responseType};
    }
  }

  // ------------------------------------------------- outgoing frames and the
  // ------------------------------------------------- request/response map

  function UpdateConfigMessage(configJson: string): string
  {
    "{\"type\":\"update_config\",\"data\":" + configJson + "}"
  }

  function MicTestMessage(enabled: bool): string
  {
    "{\"type\":\"set_mic_test\",\"enabled\":" + (if enabled then "true" else "false") + "}"
  }

  /** The request frame: the payload, or `{"type":"<requestType>"}` when the
      payload is the empty object. */
  function RequestText(requestType: string, payload: string): string
  {
    if payload == "{}" then "{\"type\":\"" + requestType + "\"}" else payload
  }

  function Register(handlers: map<string, Deferred>, responseType: string): map<string, Deferred>
  {
    handlers[responseType := Pending]
  }

  function Finish(handlers: map<string, Deferred>, responseType: string): (Result<JsonObject, string>, map<string, Deferred>)
  {
    var r := if responseType in handlers && handlers[responseType].Completed?
      then Success(handlers[responseType].response) else Failure(TimedOut);
    (r, handlers - {responseType})
  }

  // ------------------------------------------------------ server status

  function AfterServerStatus(c: ConnectionState, status: ServerStatus): ConnectionState
  {
    match status
    case Initializing => Disconnected
    case Starting => BabelfishRestarting
    case Stopped => if c.Error? then c else Disconnected
    case _ => c
  }

  /** An error stays visible until the backend is initialised or restarted
      again. */
  lemma ErrorClearedOnlyByRestart(message: string, status: ServerStatus)
    ensures AfterServerStatus(Error(message), status) != Error(message)
            <==> status == Initializing || status == Starting
  {
  }

  // ------------------------------------------------------- line properties

  /** No line removes a handler or overwrites a completed one, the event
      list only grows, by at most one event, and the configuration is never
      cleared. */
  lemma LineEffectsBounded(v: ClientView, line: string, parse: string -> Result<Json, string>,
                           decode: Json -> Result<ConfigMapper.Babelfish, string>)
    ensures var r := HandleLine(v, line, parse, decode);
      && r.handlers.Keys == v.handlers.Keys
      && (forall t :: t in v.handlers && v.handlers[t].Completed? ==> r.handlers[t] == v.handlers[t])
      && v.events <= r.events && |r.events| <= |v.events| + 1
      && (v.config.Some? ==> r.config.Some?)
      && v.closeRequests <= r.closeRequests <= v.closeRequests + 1
  {
  }

  /** A line that is blank, fails to parse, is not an object or has no
      string "type" changes no state. */
  lemma IgnoredLines(v: ClientView, line: string, parse: string -> Result<Json, string>,
                     decode: Json -> Result<ConfigMapper.Babelfish, string>)
    requires IsBlank(line) || parse(line).Failure? || !parse(line).value.Object?
             || ContentOrNull(parse(line).value.fields, "type").Failure?
             || ContentOrNull(parse(line).value.fields, "type") == Success(None)
    ensures HandleLine(v, line, parse, decode) == v
  {
  }

  /** A frame whose type has a pending handler completes it with the frame
      itself, and the request then returns that frame. */
  lemma RequestCorrelation(v: ClientView, responseType: string, line: string, fields: JsonObject,
                           parse: string -> Result<Json, string>,
                           decode: Json -> Result<ConfigMapper.Babelfish, string>)
    requires !IsBlank(line) && parse(line) == Success(Object(fields))
    requires "type" in fields && fields["type"] == Primitive(responseType)
    ensures var after := HandleLine(v.(handlers := Register(v.handlers, responseType)), line, parse, decode);
      && after.handlers == Register(v.handlers, responseType)[responseType := Completed(fields)]
      && Finish(after.handlers, responseType) == (Success(fields), v.handlers - {responseType})
  {
    var after := HandleLine(v.(handlers := Register(v.handlers, responseType)), line, parse, decode);
    assert after.handlers - {responseType} == v.handlers - {responseType};
  }

  /** A request whose response never arrives times out, and its handler is
      gone afterwards. */
  lemma UnansweredRequestTimesOut(handlers: map<string, Deferred>, responseType: string)
    ensures Finish(Register(handlers, responseType), responseType).0 == Failure(TimedOut)
    ensures responseType !in Finish(Register(handlers, responseType), responseType).1
  {
  }

  /** An event frame marks the engine connected and emits the matching
      event in arrival order; other event names emit nothing. */
  lemma EventFrames(v: ClientView, line: string, name: string, fields: JsonObject,
                    parse: string -> Result<Json, string>,
                    decode: Json -> Result<ConfigMapper.Babelfish, string>)
    requires !IsBlank(line) && parse(line) == Success(Object(fields))
    requires "type" in fields && fields["type"] == Primitive("event")
    requires "event" in fields && fields["event"] == Primitive(name)
    ensures var r := HandleLine(v, line, parse, decode);
      && r.connection == Connected
      && (name == "wakeword_detected" ==> r.events == v.events + [WakewordDetected])
      && (name == "stop_word_detected" ==> r.events == v.events + [StopWordDetected])
      && (name != "wakeword_detected" && name != "stop_word_detected" ==> r.events == v.events)
      && r.vad == v.vad && r.mode == v.mode && r.config == v.config
  {
  }

  /** A ready status sets Connected and takes the VAD state and engine mode
      from the frame when it names a known value, keeping them otherwise. */
  lemma ReadyStatus(v: ClientView, line: string, fields: JsonObject,
                    message: Option<string>, vadState: Option<string>, engineState: Option<string>,
                    mode: Option<string>, parse: string -> Result<Json, string>,
                    decode: Json -> Result<ConfigMapper.Babelfish, string>)
    requires !IsBlank(line) && parse(line) == Success(Object(fields))
    requires "type" in fields && fields["type"] == Primitive("status")
    requires ContentOrNull(fields, "message") == Success(message)
    requires ContentOrNull(fields, "vad_state") == Success(vadState)
    requires ContentOrNull(fields, "engine_state") == Success(engineState)
    requires ContentOrNull(fields, "mode") == Success(mode)
    requires SignalsReady(message, vadState, engineState)
    ensures var r := HandleLine(v, line, parse, decode);
      && r.connection == Connected
      && (vadState == Some("listening") ==> r.vad == Listening)
      && (vadState == Some("idle") ==> r.vad == Idle)
      && (mode == Some("active") ==> r.mode == Active)
      && (mode == Some("wakeword") ==> r.mode == Wakeword)
      && (r.vad != v.vad ==> vadState == Some("listening") || vadState == Some("idle"))
      && (r.mode != v.mode ==> mode == Some("active") || mode == Some("wakeword"))
      && r.events == v.events && r.config == v.config
  {
  }

  // ----------------------------------------- the bootstrap helper's frames

  /** The JSON parser reads every line of the status-frame grammar as the
      object with exactly its three fields. */
  ghost predicate ReadsStatusFrames(parse: string -> Result<Json, string>)
  {
    forall line :: StatusFrame.DecodeFrame(line).Some? ==>
      parse(line) == Success(Object(StatusObject(StatusFrame.DecodeFrame(line).value.0,
                                                 StatusFrame.DecodeFrame(line).value.1)))
  }

  function StatusObject(message: string, vadState: string): JsonObject
  {
    map["type" := Primitive("status"), "message" := Primitive(message), "vad_state" := Primitive(vadState)]
  }

  /** A line of the status-frame grammar whose VAD state is neither
      "listening" nor "idle" and whose message is not "Engine Ready!" shows
      the message as bootstrap progress and changes neither the VAD state,
      the engine mode, the events nor the config. */
  lemma StatusLineShowsProgress(v: ClientView, line: string, message: string, vadState: string,
                                parse: string -> Result<Json, string>,
                                decode: Json -> Result<ConfigMapper.Babelfish, string>)
    requires ReadsStatusFrames(parse)
    requires StatusFrame.DecodeFrame(line) == Some((message, vadState)) && !IsBlank(line)
    requires message != EngineReady && vadState != "listening" && vadState != "idle"
    ensures var r := HandleLine(v, line, parse, decode);
      && r.connection == Bootstrapping(message)
      && r.vad == v.vad && r.mode == v.mode && r.events == v.events && r.config == v.config
      && r.handlers == Complete(v.handlers, "status", StatusObject(message, vadState))
      && r.closeRequests == if Contains(message, StartingBabelfish) then v.closeRequests + 1 else v.closeRequests
  {
    var f := StatusObject(message, vadState);
    assert parse(line) == Success(Object(f));
    assert ContentOrNull(f, "type") == Success(Some("status"));
    assert ContentOrNull(f, "message") == Success(Some(message));
    assert ContentOrNull(f, "vad_state") == Success(Some(vadState));
    assert ContentOrNull(f, "engine_state") == Success(None);
    assert ContentOrNull(f, "mode") == Success(None);
    assert !SignalsReady(Some(message), Some(vadState), None);
  }

  /** A status frame starts with its opening brace, so it is never blank. */
  lemma FrameNotBlank(message: string, vadState: string)
    ensures !IsBlank(StatusFrame.Frame(message, vadState))
  {
    var f := StatusFrame.Frame(message, vadState);
    assert f[0] == '{';
  }

  /** Every frame the bootstrap helper sends whose message is not
      "Engine Ready!" shows that message as bootstrap progress. */
  lemma BootstrapFrameShowsProgress(v: ClientView, message: string,
                                    parse: string -> Result<Json, string>,
                                    decode: Json -> Result<ConfigMapper.Babelfish, string>)
    requires ReadsStatusFrames(parse)
    requires message != EngineReady
    ensures var r := HandleLine(v, StatusFrame.Frame(message, Bootstrap.BootstrappingState), parse, decode);
      && r.connection == Bootstrapping(message)
      && r.vad == v.vad && r.mode == v.mode && r.events == v.events && r.config == v.config
      && r.handlers == Complete(v.handlers, "status", StatusObject(message, Bootstrap.BootstrappingState))
      && r.closeRequests == if Contains(message, StartingBabelfish) then v.closeRequests + 1 else v.closeRequests
  {
    StatusFrame.FrameRoundTrip(message, Bootstrap.BootstrappingState);
    FrameNotBlank(message, Bootstrap.BootstrappingState);
    StatusLineShowsProgress(v, StatusFrame.Frame(message, Bootstrap.BootstrappingState), message,
                            Bootstrap.BootstrappingState, parse, decode);
  }

  /** The bootstrap helper's closing "Starting Engine..." does not contain
      "Starting Babelfish...", so it never asks to close the session. */
  lemma StartingEngineKeepsSession(v: ClientView, parse: string -> Result<Json, string>,
                                   decode: Json -> Result<ConfigMapper.Babelfish, string>)
    requires ReadsStatusFrames(parse)
    ensures var r := HandleLine(v, StatusFrame.Frame(Bootstrap.StartingEngine, Bootstrap.BootstrappingState), parse, decode);
      r.closeRequests == v.closeRequests && r.connection == Bootstrapping(Bootstrap.StartingEngine)
  {
    BootstrapFrameShowsProgress(v, Bootstrap.StartingEngine, parse, decode);
    assert !Contains(Bootstrap.StartingEngine, StartingBabelfish) by {
      assert |Bootstrap.StartingEngine| < |StartingBabelfish|;
    }
  }

  /** The payloads of the stream-data entries of a wire, in order. */
  function StreamPayloads(wire: seq<Bootstrap.Wire>): (payloads: seq<Bootstrap.Payload>)
    ensures |payloads| <= |wire|
    decreases |wire|
  {
    if |wire| == 0 then []
    else
      var last := wire[|wire| - 1];
      StreamPayloads(wire[..|wire| - 1]) + (if last.StreamData? then [last.payload] else [])
  }

  /** The text the client reads from a wire: one line per stream-data entry. */
  function StreamText(wire: seq<Bootstrap.Wire>): (lines: seq<string>)
  {
    var payloads := StreamPayloads(wire);
    seq(|payloads|, k requires 0 <= k < |payloads| => Bootstrap.Encode(payloads[k]))
  }

  function BootstrapFrames(messages: seq<string>): (lines: seq<string>)
  {
    seq(|messages|, k requires 0 <= k < |messages| => StatusFrame.Frame(messages[k], Bootstrap.BootstrappingState))
  }

  /** The status updates sent on a stream put exactly one status payload
      per message on it, in order. */
  lemma {:induction false} SentPayloads(streamId: nat, messages: seq<string>)
    ensures StreamPayloads(Bootstrap.Sent(Some(streamId), messages))
      == seq(|messages|, k requires 0 <= k < |messages| => Bootstrap.Status(messages[k], Bootstrap.BootstrappingState))
    decreases |messages|
  {
    if |messages| > 0 {
      var init := messages[..|messages| - 1];
      var m := messages[|messages| - 1];
      SentPayloads(streamId, init);
      Bootstrap.SentSnoc(Some(streamId), init, m);
      assert init + [m] == messages;
      var w := Bootstrap.Sent(Some(streamId), messages);
      assert w == Bootstrap.Sent(Some(streamId), init) + [Bootstrap.StreamData(streamId, Bootstrap.Status(m, Bootstrap.BootstrappingState), false)];
      assert w[..|w| - 1] == Bootstrap.Sent(Some(streamId), init);
    }
  }

  /** The client reads the frames of those messages, one per line. */
  lemma SentText(streamId: nat, messages: seq<string>)
    ensures StreamText(Bootstrap.Sent(Some(streamId), messages)) == BootstrapFrames(messages)
  {
    SentPayloads(streamId, messages);
  }

  /** Status lines handled in order, none of which signals readiness: the
      client ends showing the last message as bootstrap progress. */
  lemma {:induction false} StatusLinesShowProgress(v: ClientView, lines: seq<string>, messages: seq<string>,
                                                   parse: string -> Result<Json, string>,
                                                   decode: Json -> Result<ConfigMapper.Babelfish, string>)
    requires ReadsStatusFrames(parse)
    requires |lines| == |messages| > 0
    requires forall k :: 0 <= k < |lines| ==>
      StatusFrame.DecodeFrame(lines[k]) == Some((messages[k], Bootstrap.BootstrappingState)) && !IsBlank(lines[k])
    requires forall k :: 0 <= k < |messages| ==> messages[k] != EngineReady
    ensures var r := HandleLines(v, lines, parse, decode);
      && r.connection == Bootstrapping(messages[|messages| - 1])
      && r.vad == v.vad && r.mode == v.mode && r.events == v.events && r.config == v.config
    decreases |lines|
  {
    var n := |lines| - 1;
    var before := HandleLines(v, lines[..n], parse, decode);
    if n > 0 {
      StatusLinesShowProgress(v, lines[..n], messages[..n], parse, decode);
    }
    StatusLineShowsProgress(before, lines[n], messages[n], Bootstrap.BootstrappingState, parse, decode);
  }

  /** After reading the status updates a bootstrap stream carries, none of
      which says "Engine Ready!", the client shows the last message as
      bootstrap progress, with VAD state, engine mode, events and config as
      before. */
  lemma BootstrapProgressShown(v: ClientView, streamId: nat, messages: seq<string>,
                               parse: string -> Result<Json, string>,
                               decode: Json -> Result<ConfigMapper.Babelfish, string>)
    requires ReadsStatusFrames(parse)
    requires |messages| > 0
    requires forall k :: 0 <= k < |messages| ==> messages[k] != EngineReady
    ensures var r := HandleLines(v, StreamText(Bootstrap.Sent(Some(streamId), messages)), parse, decode);
      && r.connection == Bootstrapping(messages[|messages| - 1])
      && r.vad == v.vad && r.mode == v.mode && r.events == v.events && r.config == v.config
  {
    SentText(streamId, messages);
    var lines := BootstrapFrames(messages);
    forall k | 0 <= k < |lines|
      ensures StatusFrame.DecodeFrame(lines[k]) == Some((messages[k], Bootstrap.BootstrappingState)) && !IsBlank(lines[k])
    {
      StatusFrame.FrameRoundTrip(messages[k], Bootstrap.BootstrappingState);
      FrameNotBlank(messages[k], Bootstrap.BootstrappingState);
    }
    StatusLinesShowProgress(v, lines, messages, parse, decode);
  }

  // -------------------------------------------------------- KwBabelfishClient

  type Handle = nat

  /** The outcome of creating a client endpoint and connecting it. */
  datatype Dial =
    | Established(endpoint: Handle, connection: Handle)
    | EndpointFailed(message: Option<string>)
    | ConnectFailed(endpoint: Handle, message: Option<string>)

  datatype KwView = KwView(state: ConnectionState, endpoint: Option<Handle>, connection: Option<Handle>,
                           closed: seq<Handle>)

  /** The connection state says Connected exactly when both transport
      objects are held. */
  predicate KwConsistent(v: KwView)
  {
    (v.state == Connected <==> v.connection.Some?) && (v.endpoint.Some? <==> v.connection.Some?)
  }

  /** `cleanup`: closes whatever is held, connection first, ignoring close
      errors, and drops both. */
  function Cleanup(v: KwView): KwView
  {
    var closedConnection := if v.connection.Some? then v.closed + [v.connection.value] else v.closed;
    var closedBoth := if v.endpoint.Some? then closedConnection + [v.endpoint.value] else closedConnection;
    v.(endpoint := None, connection := None, closed := closedBoth)
  }

  function KwConnect(v: KwView, dial: Dial): KwView
  {
    if v.state == Connected || v.state == Connecting then v
    else match dial
      case Established(e, c) => v.(state := Connected, endpoint := Some(e), connection := Some(c))
      case EndpointFailed(m) => Cleanup(v.(state := Error(m.GetOr("Unknown error"))))
      case ConnectFailed(e, m) => Cleanup(v.(state := Error(m.GetOr("Unknown error")), endpoint := Some(e)))
  }

  function KwDisconnect(v: KwView): KwView
  {
    Cleanup(v).(state := Disconnected)
  }

  /** Connecting while connected or connecting is a no-op; otherwise the
      outcome is Connected with both objects held, or Error with the
      failure's message (or "Unknown error") and nothing held. */
  lemma KwConnectOutcome(v: KwView, dial: Dial)
    requires KwConsistent(v)
    ensures var r := KwConnect(v, dial);
      && KwConsistent(r)
      && (v.state == Connected || v.state == Connecting ==> r == v)
      && (v.state != Connected && v.state != Connecting ==>
            (r.state == Connected <==> dial.Established?)
            && (dial.Established? ==> r.endpoint == Some(dial.endpoint) && r.connection == Some(dial.connection))
            && (!dial.Established? ==>
                  (r.state == Error(dial.message.GetOr("Unknown error")) && r.endpoint.None? && r.connection.None?)))
  {
  }

  /** A failed connect closes the endpoint it created. */
  lemma KwFailedConnectReleasesEndpoint(v: KwView, e: Handle, message: Option<string>)
    requires KwConsistent(v) && v.state != Connected && v.state != Connecting
    ensures KwConnect(v, ConnectFailed(e, message)).closed == v.closed + [e]
  {
  }

  /** Disconnecting always ends Disconnected, holding nothing, with every
      held object closed. */
  lemma KwDisconnectReleases(v: KwView)
    requires KwConsistent(v)
    ensures var r := KwDisconnect(v);
      && r.state == Disconnected && r.endpoint.None? && r.connection.None? && KwConsistent(r)
      && (v.state == Connected ==> r.closed == v.closed + [v.connection.value, v.endpoint.value])
      && (v.state != Connected ==> r.closed == v.closed)
  {
  }

  class KwBabelfishClient {
    var connectionState: ConnectionState
    var vadState: VadState
    var endpoint: Option<Handle>
    var connection: Option<Handle>
    var closed: seq<Handle>

    function View(): KwView
      reads this
    {
      KwView(connectionState, endpoint, connection, closed)
    }

    constructor ()
      ensures View() == KwView(Disconnected, None, None, []) && vadState == Idle
      ensures KwConsistent(View())
    {
      connectionState := Disconnected;
      vadState := Idle;
      endpoint := None;
      connection := None;
      closed := [];
    }

    method CleanupHandles()
      modifies this
      ensures View() == Cleanup(old(View())) && vadState == old(vadState)
    {
      if connection.Some? {
        closed := closed + [connection.value];
      }
      connection := None;
      if endpoint.Some? {
        closed := closed + [endpoint.value];
      }
      endpoint := None;
    }

    /** `connect`; `dial` is what creating the endpoint and connecting it to
        https://localhost:8123 produced. */
    method Connect(dial: Dial)
      modifies this
      ensures View() == KwConnect(old(View()), dial) && vadState == old(vadState)
    {
      if connectionState == Connected || connectionState == Connecting {
        return;
      }
      connectionState := Connecting;
      match dial
      case Established(e, c) =>
        endpoint := Some(e);
        connection := Some(c);
        connectionState := Connected;
      case EndpointFailed(m) =>
        connectionState := Error(m.GetOr("Unknown error"));
        CleanupHandles();
      case ConnectFailed(e, m) =>
        endpoint := Some(e);
        connectionState := Error(m.GetOr("Unknown error"));
        CleanupHandles();
    }

    method Disconnect()
      modifies this
      ensures View() == KwDisconnect(old(View())) && vadState == old(vadState)
    {
      CleanupHandles();
      connectionState := Disconnected;
    }
  }
}
