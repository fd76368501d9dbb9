/** The bootstrap helper: a one-shot WebTransport server that reports, as
    status frames, how it detects the hardware, syncs the engine's Python
    dependencies with `uv`, and then hands the process over to the engine.
    The QUIC connection is a `Connection` object recording the calls the
    server makes on it; the environment, `nvidia-smi`, the `uv sync` child
    process and the final exec are inputs gathered in `Host`. */
module Bootstrap {
  import opened Wrappers
  import opened Text
  import opened StatusFrame

  const Port: nat := 8123
  const MinVramMb: nat := 6000
  const UvCmd: string := "uv"
  const CpuIndexUrl: string := "https://download.pytorch.org/whl/cpu"
  const BootstrappingState: string := "bootstrapping"

  const DetectingHardware: string := "Detecting Hardware..."
  const ForceCpuMessage: string := "Environment variable VOGON_FORCE_CPU set. Forcing CPU mode."
  const NoGpuMessage: string := "No GPU found, using CPU-only index..."
  const SyncFailedMessage: string := "Error: Dependency sync failed. Check logs."
  const StartingEngine: string := "Starting Engine..."

  // ------------------------------------------------------------ transport

  /** What a stream write carries: a status update, whose bytes are its
      `Frame`, or raw bytes. */
  datatype Payload = Status(message: string, vadState: string) | Raw(bytes: string)

  /** The text of a payload as it travels on the stream. */
  function Encode(p: Payload): string
  {
    match p
    case Status(message, vadState) => Frame(message, vadState)
    case Raw(bytes) => bytes
  }

  /** One call the server makes on the QUIC/HTTP-3 connection. */
  datatype Wire =
    | StreamData(streamId: nat, payload: Payload, endStream: bool)
    | HeadersSent(streamId: nat, headers: seq<(string, string)>, endStream: bool)
    | ConnectionClose(errorCode: int)

  /** The connection, as the list of calls made on it so far. */
  class Connection {
    var wire: seq<Wire>

    constructor()
      ensures wire == []
    {
      wire := [];
    }

    method SendStreamData(streamId: nat, payload: Payload, endStream: bool)
      modifies this
      ensures wire == old(wire) + [StreamData(streamId, payload, endStream)]
    {
      wire := wire + [StreamData(streamId, payload, endStream)];
    }

    method SendHeaders(streamId: nat, headers: seq<(string, string)>, endStream: bool)
      modifies this
      ensures wire == old(wire) + [HeadersSent(streamId, headers, endStream)]
    {
      wire := wire + [HeadersSent(streamId, headers, endStream)];
    }

    method Close(errorCode: int)
      modifies this
      ensures wire == old(wire) + [ConnectionClose(errorCode)]
    {
      wire := wire + [ConnectionClose(errorCode)];
    }
  }

  /** What one status update puts on the wire: nothing before a stream is
      established, otherwise one frame on that stream. */
  function Update(streamId: Option<nat>, message: string, vadState: string): seq<Wire>
  {
    if streamId.None? then [] else [StreamData(streamId.value, Status(message, vadState), false)]
  }

  /** The wire effect of a run of bootstrap status updates, in order. */
  function Sent(streamId: Option<nat>, messages: seq<string>): seq<Wire>
  {
    if |messages| == 0 then []
    else Sent(streamId, messages[..|messages| - 1]) + Update(streamId, messages[|messages| - 1], BootstrappingState)
  }

  lemma SentSnoc(streamId: Option<nat>, messages: seq<string>, m: string)
    ensures Sent(streamId, messages + [m]) == Sent(streamId, messages) + Update(streamId, m, BootstrappingState)
  {
    assert (messages + [m])[..|messages|] == messages;
  }

  /** One more update extends the wire by one more message's effect. */
  lemma SendStep(before: seq<Wire>, streamId: Option<nat>, sent: seq<string>, m: string)
    ensures (before + Sent(streamId, sent)) + Update(streamId, m, BootstrappingState)
      == before + Sent(streamId, sent + [m])
  {
    SentSnoc(streamId, sent, m);
    AppendAssoc(before, Sent(streamId, sent), Update(streamId, m, BootstrappingState));
  }

  lemma {:induction false} SentAppend(streamId: Option<nat>, a: seq<string>, b: seq<string>)
    ensures Sent(streamId, a + b) == Sent(streamId, a) + Sent(streamId, b)
    decreases |b|
  {
    if |b| == 0 {
      assert a + b == a;
    } else {
      var b' := b[..|b| - 1];
      assert a + b == (a + b') + [b[|b| - 1]];
      SentSnoc(streamId, a + b', b[|b| - 1]);
      SentAppend(streamId, a, b');
      SentSnoc(streamId, b', b[|b| - 1]);
      assert b' + [b[|b| - 1]] == b;
    }
  }

  /** The updates are sent one frame each, in order, on the established
      stream, never ending it; before a stream exists nothing is sent. */
  lemma {:induction false} SentShape(streamId: Option<nat>, messages: seq<string>)
    ensures streamId.None? ==> Sent(streamId, messages) == []
    ensures streamId.Some? ==> (|Sent(streamId, messages)| == |messages|
      && forall k :: 0 <= k < |messages| ==>
        Sent(streamId, messages)[k] == StreamData(streamId.value, Status(messages[k], BootstrappingState), false))
    decreases |messages|
  {
    if |messages| > 0 {
      var init := messages[..|messages| - 1];
      SentShape(streamId, init);
      if streamId.Some? {
        forall k | 0 <= k < |init|
          ensures Sent(streamId, messages)[k] == StreamData(streamId.value, Status(messages[k], BootstrappingState), false)
        {
          assert Sent(streamId, messages)[k] == Sent(streamId, init)[k];
          assert messages[k] == init[k];
        }
      }
    }
  }

  /** A status payload decodes back to its message and VAD state. */
  lemma StatusDecodes(p: Payload)
    requires p.Status?
    ensures DecodeFrame(Encode(p)) == Some((p.message, p.vadState))
  {
    FrameRoundTrip(p.message, p.vadState);
  }

  /** Every update the bootstrap sends on an established stream decodes
      back to its message with the "bootstrapping" VAD state. */
  lemma SentFramesDecode(id: nat, messages: seq<string>)
    ensures |Sent(Some(id), messages)| == |messages|
    ensures forall k :: 0 <= k < |messages| ==> (Sent(Some(id), messages)[k].StreamData? &&
      DecodeFrame(Encode(Sent(Some(id), messages)[k].payload)) == Some((messages[k], BootstrappingState)))
  {
    SentShape(Some(id), messages);
    forall k | 0 <= k < |messages|
      ensures Sent(Some(id), messages)[k].StreamData? &&
        DecodeFrame(Encode(Sent(Some(id), messages)[k].payload)) == Some((messages[k], BootstrappingState))
    {
      StatusDecodes(Sent(Some(id), messages)[k].payload);
    }
  }

  /** A run of updates carries no end of stream and no connection close. */
  lemma SentIsOnlyData(streamId: Option<nat>, messages: seq<string>)
    ensures forall w :: w in Sent(streamId, messages) ==> w.StreamData? && !w.endStream
  {
    SentShape(streamId, messages);
    forall w | w in Sent(streamId, messages)
      ensures w.StreamData? && !w.endStream
    {
      var k :| 0 <= k < |Sent(streamId, messages)| && Sent(streamId, messages)[k] == w;
    }
  }

  // ------------------------------------------------------------- hardware

  /** `nvidia-smi`'s answer: its output, or the exception running it raised. */
  datatype Probe = ProbeOutput(text: string) | ProbeRaised(error: string)

  /** `x.strip().isdigit()`: the line, stripped, is a non-empty run of
      decimal digits. */
  predicate IsFigure(line: string)
  {
    var s := Strip(line);
    |s| > 0 && AllDigits(s)
  }

  /** `int(x.strip())` for such a line. */
  function FigureValue(line: string): nat
    requires IsFigure(line)
  {
    DigitsValue(Strip(line))
  }

  /** The figures of the lines that are figures, in order. */
  function VramOf(lines: seq<string>): seq<nat>
  {
    if |lines| == 0 then []
    else (if IsFigure(lines[0]) then [FigureValue(lines[0])] else []) + VramOf(lines[1..])
  }

  /** `[int(x.strip()) for x in output.strip().split("\n") if x.strip().isdigit()]`. */
  function VramValues(output: string): seq<nat>
  {
    VramOf(Split(Strip(output), '\n'))
  }

  /** A figure counts exactly when some line, stripped, is all digits and
      has that value. */
  lemma {:induction false} VramOfMembers(lines: seq<string>, v: nat)
    ensures v in VramOf(lines) <==>
      (exists k :: 0 <= k < |lines| && IsFigure(lines[k]) && FigureValue(lines[k]) == v)
  {
    if |lines| > 0 {
      var tail := lines[1..];
      VramOfMembers(tail, v);
      if v in VramOf(lines) && !(IsFigure(lines[0]) && FigureValue(lines[0]) == v) {
        assert v in VramOf(tail);
        var k :| 0 <= k < |tail| && IsFigure(tail[k]) && FigureValue(tail[k]) == v;
        assert lines[k + 1] == tail[k];
      }
      if exists k :: 0 <= k < |lines| && IsFigure(lines[k]) && FigureValue(lines[k]) == v {
        var k :| 0 <= k < |lines| && IsFigure(lines[k]) && FigureValue(lines[k]) == v;
        if k > 0 {
          assert tail[k - 1] == lines[k];
          assert v in VramOf(tail);
        }
      }
    }
  }

  /** Python's `max` of a non-empty list. */
  function MaxOf(values: seq<nat>): (m: nat)
    requires |values| > 0
    ensures m in values
    ensures forall v :: v in values ==> v <= m
  {
    if |values| == 1 then values[0]
    else
      var rest := MaxOf(values[1..]);
      assert forall v :: v in values ==> v == values[0] || v in values[1..];
      if values[0] >= rest then values[0] else rest
  }

  /** Python truthiness of `os.environ.get(...)`: set and non-empty. */
  predicate Truthy(v: Option<string>)
  {
    v.Some? && v.value != ""
  }

  function FoundGpuMessage(vram: nat): string
  {
    "Found NVIDIA GPU with " + NatToString(vram) + " MiB VRAM (>= " + NatToString(MinVramMb) + " MiB)."
  }

  function BelowMinimumMessage(vram: nat): string
  {
    "Found NVIDIA GPU but VRAM (" + NatToString(vram) + " MiB) is below minimum ("
    + NatToString(MinVramMb) + " MiB). Falling back to CPU."
  }

  /** The hardware decision and the status it reports. */
  datatype Detection = Detection(isNvidia: bool, messages: seq<string>)

  function Detect(forceCpu: Option<string>, probe: Probe): Detection
  {
    if Truthy(forceCpu) then Detection(false, [ForceCpuMessage])
    else
      match probe
      case ProbeRaised(_) => Detection(false, [])
      case ProbeOutput(text) => GpuDecision(VramValues(text))
  }

  /** The decision on the figures `nvidia-smi` printed. */
  function GpuDecision(vram: seq<nat>): Detection
  {
    if |vram| == 0 then Detection(false, [])
    else
      var best := MaxOf(vram);
      if best >= MinVramMb then Detection(true, [FoundGpuMessage(best)])
      else Detection(false, [BelowMinimumMessage(best)])
  }

  /** The largest figure reaches the threshold exactly when some figure does. */
  lemma GpuDecisionReachesThreshold(vram: seq<nat>)
    ensures GpuDecision(vram).isNvidia <==> exists v :: v in vram && v >= MinVramMb
  {
    if |vram| > 0 && MaxOf(vram) < MinVramMb {
      assert forall v :: v in vram ==> v < MinVramMb;
    }
  }

  /** NVIDIA mode holds exactly when no CPU override is set, the probe
      answered, and one of the figures it printed reaches 6000 MiB. */
  lemma NvidiaDecision(forceCpu: Option<string>, probe: Probe)
    ensures Detect(forceCpu, probe).isNvidia <==>
      !Truthy(forceCpu) && probe.ProbeOutput?
      && exists v :: v in VramValues(probe.text) && v >= MinVramMb
  {
    if !Truthy(forceCpu) && probe.ProbeOutput? {
      GpuDecisionReachesThreshold(VramValues(probe.text));
    }
  }

  /** Any non-empty `VOGON_FORCE_CPU` makes the probe irrelevant: CPU mode
      and the one override message, whatever `nvidia-smi` would say. */
  lemma ForceCpuSkipsProbe(forceCpu: Option<string>, probe: Probe, probe': Probe)
    requires Truthy(forceCpu)
    ensures Detect(forceCpu, probe) == Detect(forceCpu, probe')
    ensures !Detect(forceCpu, probe).isNvidia && Detect(forceCpu, probe).messages == [ForceCpuMessage]
  {
  }

  /** The `uv sync` command line for the detected hardware. */
  function SyncCommand(isNvidia: bool): (cmd: seq<string>)
    ensures |cmd| >= 2 && cmd[..2] == [UvCmd, "sync"]
    ensures |cmd| == 2 <==> isNvidia
    ensures !isNvidia ==> cmd[2..] == ["--extra-index-url", CpuIndexUrl]
  {
    [UvCmd, "sync"] + (if isNvidia then [] else ["--extra-index-url", CpuIndexUrl])
  }

  function DetectedMessage(isNvidia: bool): string
  {
    "Detected " + (if isNvidia then "NVIDIA GPU" else "CPU") + ". Preparing environment..."
  }

  function SyncingMessage(babelfishDir: string): string
  {
    "Syncing dependencies in " + babelfishDir + "..."
  }

  /** Everything reported before `uv sync` starts. */
  function PreparationMessages(d: Detection, babelfishDir: string): seq<string>
  {
    [DetectingHardware] + d.messages + [DetectedMessage(d.isNvidia)] + [SyncingMessage(babelfishDir)]
    + (if d.isNvidia then [] else [NoGpuMessage])
  }

  // ------------------------------------------------------------ uv sync

  /** A child process: the successive lines `readline` returns before end of
      file (never empty), and its exit code. */
  datatype Process = Process(output: seq<string>, exitCode: int)

  /** The output lines forwarded as status updates: each one stripped, the
      blank ones dropped, in order. */
  function ForwardedLines(lines: seq<string>): seq<string>
  {
    if |lines| == 0 then []
    else
      var s := Strip(lines[|lines| - 1]);
      ForwardedLines(lines[..|lines| - 1]) + (if s == "" then [] else [s])
  }

  /** Each forwarded update is a non-blank stripped line, and no line is
      forwarded twice. */
  lemma {:induction false} ForwardedLinesShape(lines: seq<string>)
    ensures |ForwardedLines(lines)| <= |lines|
    ensures forall m :: m in ForwardedLines(lines) ==> m != "" && exists k :: 0 <= k < |lines| && m == Strip(lines[k])
  {
    if |lines| > 0 {
      var init := lines[..|lines| - 1];
      ForwardedLinesShape(init);
      forall m | m in ForwardedLines(lines)
        ensures m != "" && exists k :: 0 <= k < |lines| && m == Strip(lines[k])
      {
        if m in ForwardedLines(init) {
          var k :| 0 <= k < |init| && m == Strip(init[k]);
          assert lines[k] == init[k];
        } else {
          assert m == Strip(lines[|lines| - 1]);
        }
      }
    }
  }

  lemma ForwardedLinesSnoc(lines: seq<string>, line: string)
    ensures ForwardedLines(lines + [line]) == ForwardedLines(lines) + (if Strip(line) == "" then [] else [Strip(line)])
  {
    assert (lines + [line])[..|lines|] == lines;
  }

  /** Forwarding distributes over concatenated output. */
  lemma {:induction false} ForwardedLinesAppend(a: seq<string>, b: seq<string>)
    ensures ForwardedLines(a + b) == ForwardedLines(a) + ForwardedLines(b)
    decreases |b|
  {
    if |b| == 0 {
      assert a + b == a;
    } else {
      var b', last := b[..|b| - 1], b[|b| - 1];
      assert b == b' + [last];
      assert a + b == (a + b') + [last];
      ForwardedLinesSnoc(a + b', last);
      ForwardedLinesSnoc(b', last);
      ForwardedLinesAppend(a, b');
      AppendAssoc(ForwardedLines(a), ForwardedLines(b'), if Strip(last) == "" then [] else [Strip(last)]);
    }
  }

  // ------------------------------------------------------------- handoff

  /** How the bootstrap ends: not at all (an error was reported), by waiting
      for the engine and exiting with status 0 (Windows), or by replacing
      its own process image with the engine (elsewhere). */
  datatype Handoff =
    | NoHandoff
    | CallThenExit(cwd: string, args: seq<string>, exitStatus: int)
    | Exec(cwd: string, file: string, args: seq<string>)

  const EngineArgs: seq<string> := [UvCmd, "run", "babelfish.py"]

  function HandoffFor(platform: string, babelfishDir: string): (h: Handoff)
    ensures h != NoHandoff && h.args == EngineArgs && h.cwd == babelfishDir
    ensures h.CallThenExit? <==> platform == "win32"
    ensures h.CallThenExit? ==> h.exitStatus == 0
    ensures h.Exec? ==> h.file == UvCmd
  {
    if platform == "win32" then CallThenExit(babelfishDir, EngineArgs, 0)
    else Exec(babelfishDir, UvCmd, EngineArgs)
  }

  /** The environment the bootstrap runs in. `spawn` starts a command in
      the engine directory (or fails to); `handoffError` is the exception
      that changing into that directory or starting the engine raises. */
  datatype Host = Host(
    forceCpu: Option<string>,
    probe: Probe,
    spawn: seq<string> -> Result<Process, string>,
    platform: string,
    handoffError: Option<string>)

  datatype Outcome = Outcome(wire: seq<Wire>, handoff: Handoff)

  /** The end of the run on an established stream: end the stream, close
      the connection, then hand over, or report the exception that the
      handoff raised. */
  function Closing(id: nat, host: Host, babelfishDir: string): Outcome
  {
    var closed := [StreamData(id, Raw(""), true), ConnectionClose(0)];
    match host.handoffError
    case Some(e) => Outcome(closed + Sent(Some(id), ["Error: " + e]), NoHandoff)
    case None => Outcome(closed, HandoffFor(host.platform, babelfishDir))
  }

  /** The run from the start of `uv sync` on. Sending the end of stream with
      no stream established raises, and the error report that follows is
      dropped for the same reason. */
  function SyncOutcome(streamId: Option<nat>, spawned: Result<Process, string>, host: Host, babelfishDir: string): Outcome
  {
    match spawned
    case Failure(e) => Outcome(Sent(streamId, ["Error: " + e]), NoHandoff)
    case Success(p) =>
      if streamId.None? then Outcome([], NoHandoff)
      else
        var messages := ForwardedLines(p.output) + (if p.exitCode != 0 then [SyncFailedMessage] else []) + [StartingEngine];
        var close := Closing(streamId.value, host, babelfishDir);
        Outcome(Sent(streamId, messages) + close.wire, close.handoff)
  }

  /** The whole bootstrap run: the calls it makes on the connection and how
      it ends. */
  function BootstrapRun(streamId: Option<nat>, host: Host, babelfishDir: string): Outcome
  {
    var d := Detect(host.forceCpu, host.probe);
    var rest := SyncOutcome(streamId, host.spawn(SyncCommand(d.isNvidia)), host, babelfishDir);
    Outcome(Sent(streamId, PreparationMessages(d, babelfishDir)) + rest.wire, rest.handoff)
  }

  /** The handoff happens exactly when a stream is established and neither
      starting `uv sync` nor the handoff itself raises; the sync's exit code
      plays no part. */
  lemma HandoffIffNoException(streamId: Option<nat>, host: Host, babelfishDir: string)
    ensures var d := Detect(host.forceCpu, host.probe);
      BootstrapRun(streamId, host, babelfishDir).handoff != NoHandoff <==>
        streamId.Some? && host.spawn(SyncCommand(d.isNvidia)).Success? && host.handoffError.None?
    ensures BootstrapRun(streamId, host, babelfishDir).handoff != NoHandoff ==>
      BootstrapRun(streamId, host, babelfishDir).handoff == HandoffFor(host.platform, babelfishDir)
  {
  }

  /** A failed sync is reported, then the engine is still started: the
      last two updates before the stream ends are the failure and
      "Starting Engine...". */
  lemma SyncFailureIsNotFatal(id: nat, host: Host, babelfishDir: string)
    requires var d := Detect(host.forceCpu, host.probe);
      host.spawn(SyncCommand(d.isNvidia)).Success? && host.spawn(SyncCommand(d.isNvidia)).value.exitCode != 0
    requires host.handoffError.None?
    ensures var w := BootstrapRun(Some(id), host, babelfishDir).wire;
      |w| >= 4
      && w[|w| - 4] == StreamData(id, Status(SyncFailedMessage, BootstrappingState), false)
      && w[|w| - 3] == StreamData(id, Status(StartingEngine, BootstrappingState), false)
      && w[|w| - 2] == StreamData(id, Raw(""), true) && w[|w| - 1] == ConnectionClose(0)
    ensures BootstrapRun(Some(id), host, babelfishDir).handoff == HandoffFor(host.platform, babelfishDir)
  {
    var d := Detect(host.forceCpu, host.probe);
    var spawned := host.spawn(SyncCommand(d.isNvidia));
    var p := spawned.value;
    var messages := ForwardedLines(p.output) + [SyncFailedMessage] + [StartingEngine];
    var tail := Sent(Some(id), messages) + [StreamData(id, Raw(""), true), ConnectionClose(0)];
    var rest := SyncOutcome(Some(id), spawned, host, babelfishDir);
    assert rest.wire == tail;
    var pre := Sent(Some(id), PreparationMessages(d, babelfishDir));
    assert BootstrapRun(Some(id), host, babelfishDir).wire == pre + tail;
    FailedSyncTail(id, ForwardedLines(p.output));
    SuffixIndex(pre, tail, 4);
    SuffixIndex(pre, tail, 3);
    SuffixIndex(pre, tail, 2);
    SuffixIndex(pre, tail, 1);
  }

  /** Indexing from the end of a concatenation lands in its second part. */
  lemma SuffixIndex<T>(pre: seq<T>, t: seq<T>, k: nat)
    requires 1 <= k <= |t|
    ensures (pre + t)[|pre + t| - k] == t[|t| - k]
  {
  }

  lemma FailedSyncTail(id: nat, forwarded: seq<string>)
    ensures var t := Sent(Some(id), forwarded + [SyncFailedMessage] + [StartingEngine])
        + [StreamData(id, Raw(""), true), ConnectionClose(0)];
      |t| >= 4
      && t[|t| - 4] == StreamData(id, Status(SyncFailedMessage, BootstrappingState), false)
      && t[|t| - 3] == StreamData(id, Status(StartingEngine, BootstrappingState), false)
  {
    var messages := forwarded + [SyncFailedMessage] + [StartingEngine];
    SentShape(Some(id), messages);
    assert messages[|messages| - 2] == SyncFailedMessage;
    assert messages[|messages| - 1] == StartingEngine;
  }

  /** An exception is reported once, as the last update, and stops the
      bootstrap: before the close it leaves the stream open and the
      connection up; after it, it follows the close. */
  lemma ExceptionIsReportedLast(id: nat, host: Host, babelfishDir: string, e: string)
    requires var d := Detect(host.forceCpu, host.probe);
      host.spawn(SyncCommand(d.isNvidia)) == Failure(e)
      || (host.spawn(SyncCommand(d.isNvidia)).Success? && host.handoffError == Some(e))
    ensures var w := BootstrapRun(Some(id), host, babelfishDir).wire;
      |w| >= 1 && w[|w| - 1] == StreamData(id, Status("Error: " + e, BootstrappingState), false)
    ensures var d := Detect(host.forceCpu, host.probe);
      host.spawn(SyncCommand(d.isNvidia)).Failure? ==>
        forall w :: w in BootstrapRun(Some(id), host, babelfishDir).wire ==> w.StreamData? && !w.endStream
    ensures BootstrapRun(Some(id), host, babelfishDir).handoff == NoHandoff
    ensures var d := Detect(host.forceCpu, host.probe);
      host.spawn(SyncCommand(d.isNvidia)).Success? ==>
        var w := BootstrapRun(Some(id), host, babelfishDir).wire;
        |w| >= 3 && w[|w| - 3] == StreamData(id, Raw(""), true) && w[|w| - 2] == ConnectionClose(0)
  {
    var d := Detect(host.forceCpu, host.probe);
    var pre := PreparationMessages(d, babelfishDir);
    var report := Sent(Some(id), ["Error: " + e]);
    SentSnoc(Some(id), [], "Error: " + e);
    assert [] + ["Error: " + e] == ["Error: " + e];
    assert report == [StreamData(id, Status("Error: " + e, BootstrappingState), false)];
    if host.spawn(SyncCommand(d.isNvidia)).Failure? {
      SentIsOnlyData(Some(id), pre);
      assert BootstrapRun(Some(id), host, babelfishDir).wire == Sent(Some(id), pre) + report;
    } else {
      var rest := SyncOutcome(Some(id), host.spawn(SyncCommand(d.isNvidia)), host, babelfishDir).wire;
      var closed := [StreamData(id, Raw(""), true), ConnectionClose(0)];
      assert Closing(id, host, babelfishDir).wire == closed + report;
      assert rest[|rest| - 1] == report[0];
      assert rest[|rest| - 3..] == closed + report;
    }
  }

  // ------------------------------------------------------------- handler

  /** An HTTP/3 event as the server sees it. */
  datatype H3Event =
    | HeadersReceived(streamId: nat, headers: seq<(string, string)>)
    | StreamDataReceived(streamId: nat, data: string)
    | OtherEvent

  /** One WebTransport session: the first stream the client opens carries
      the status updates, and its first data starts the bootstrap task. */
  class BootstrapHandler {
    const sessionId: nat
    const http: Connection
    var streamId: Option<nat>
    var tasksCreated: nat

    /** The bootstrap task is created at most once, and has been once a
        stream is established. */
    predicate Valid()
      reads this
    {
      tasksCreated <= 1 && (streamId.Some? ==> tasksCreated == 1)
    }

    constructor(sessionId: nat, http: Connection)
      ensures this.sessionId == sessionId && this.http == http
      ensures streamId.None? && tasksCreated == 0 && Valid()
    {
      this.sessionId := sessionId;
      this.http := http;
      streamId := None;
      tasksCreated := 0;
    }

    /** The first stream data fixes the stream and starts the bootstrap;
        every other event changes nothing. */
    method H3EventReceived(event: H3Event)
      requires Valid()
      modifies this
      ensures Valid()
      ensures event.StreamDataReceived? && old(streamId).None? ==>
        streamId == Some(event.streamId) && tasksCreated == 1
      ensures !(event.StreamDataReceived? && old(streamId).None?) ==>
        streamId == old(streamId) && tasksCreated == old(tasksCreated)
    {
      if event.StreamDataReceived? && streamId.None? {
        streamId := Some(event.streamId);
        StartBootstrap();
      }
    }

    method StartBootstrap()
      requires tasksCreated <= 1
      modifies this
      ensures tasksCreated == 1 && streamId == old(streamId)
    {
      if tasksCreated == 0 {
        tasksCreated := tasksCreated + 1;
      }
    }

    /** One status frame on the established stream; nothing without one. */
    method SendUpdate(message: string, vadState: string := BootstrappingState)
      modifies http
      ensures http.wire == old(http.wire) + Update(streamId, message, vadState)
    {
      if streamId.None? {
        return;
      }
      http.SendStreamData(streamId.value, Status(message, vadState), false);
    }

    /** Runs a command, forwarding its non-blank output lines as updates,
        and returns its exit code, or the error that starting it raised. */
    method RunCommand(cmd: seq<string>, spawn: seq<string> -> Result<Process, string>)
      returns (r: Result<int, string>)
      modifies http
      ensures spawn(cmd).Failure? ==> r == Failure(spawn(cmd).error) && http.wire == old(http.wire)
      ensures spawn(cmd).Success? ==> (r == Success(spawn(cmd).value.exitCode)
        && http.wire == old(http.wire) + Sent(streamId, ForwardedLines(spawn(cmd).value.output)))
    {
      var started := spawn(cmd);
      if started.Failure? {
        return Failure(started.error);
      }
      var process := started.value;
      for i := 0 to |process.output|
        invariant http.wire == old(http.wire) + Sent(streamId, ForwardedLines(process.output[..i]))
      {
        var line := Strip(process.output[i]);
        ghost var forwarded := ForwardedLines(process.output[..i]);
        assert process.output[..i + 1] == process.output[..i] + [process.output[i]];
        ForwardedLinesSnoc(process.output[..i], process.output[i]);
        if line != "" {
          SendUpdate(line);
          SendStep(old(http.wire), streamId, forwarded, line);
          assert ForwardedLines(process.output[..i + 1]) == forwarded + [line];
        } else {
          assert ForwardedLines(process.output[..i + 1]) == forwarded + [];
          assert forwarded + [] == forwarded;
        }
      }
      assert process.output[..|process.output|] == process.output;
      r := Success(process.exitCode);
    }

    /** Hardware detection: the override, else the `nvidia-smi` figures. */
    method DetectHardware(host: Host) returns (isNvidia: bool)
      modifies http
      ensures var d := Detect(host.forceCpu, host.probe);
        isNvidia == d.isNvidia && http.wire == old(http.wire) + Sent(streamId, [DetectingHardware] + d.messages)
    {
      ghost var d := Detect(host.forceCpu, host.probe);
      SendUpdate(DetectingHardware);
      ghost var sent := [DetectingHardware];
      assert old(http.wire) + Sent(streamId, []) == old(http.wire);
      SendStep(old(http.wire), streamId, [], DetectingHardware);
      assert [] + [DetectingHardware] == sent;
      isNvidia := false;
      if Truthy(host.forceCpu) {
        SendUpdate(ForceCpuMessage);
        SendStep(old(http.wire), streamId, sent, ForceCpuMessage);
        sent := sent + [ForceCpuMessage];
        assert d == Detection(false, [ForceCpuMessage]);
      } else if host.probe.ProbeOutput? {
        var vram := VramValues(host.probe.text);
        if |vram| > 0 {
          var best := MaxOf(vram);
          var m;
          if best >= MinVramMb {
            isNvidia := true;
            m := FoundGpuMessage(best);
          } else {
            m := BelowMinimumMessage(best);
          }
          SendUpdate(m);
          SendStep(old(http.wire), streamId, sent, m);
          sent := sent + [m];
          assert d == Detection(isNvidia, [m]);
        } else {
          assert d == Detection(false, []);
          assert sent + [] == sent;
        }
      } else {
        assert d == Detection(false, []);
        assert sent + [] == sent;
      }
    }

    /** Hardware detection, then the choice of the sync command. */
    method Prepare(host: Host, babelfishDir: string) returns (isNvidia: bool, cmd: seq<string>)
      modifies http
      ensures var d := Detect(host.forceCpu, host.probe);
        isNvidia == d.isNvidia && cmd == SyncCommand(isNvidia)
        && http.wire == old(http.wire) + Sent(streamId, PreparationMessages(d, babelfishDir))
    {
      isNvidia := DetectHardware(host);
      ghost var d := Detect(host.forceCpu, host.probe);
      ghost var sent := [DetectingHardware] + d.messages;
      assert http.wire == old(http.wire) + Sent(streamId, sent);
      SendUpdate(DetectedMessage(isNvidia));
      SendStep(old(http.wire), streamId, sent, DetectedMessage(isNvidia));
      sent := sent + [DetectedMessage(isNvidia)];
      assert http.wire == old(http.wire) + Sent(streamId, sent);
      SendUpdate(SyncingMessage(babelfishDir));
      SendStep(old(http.wire), streamId, sent, SyncingMessage(babelfishDir));
      sent := sent + [SyncingMessage(babelfishDir)];
      assert http.wire == old(http.wire) + Sent(streamId, sent);
      cmd := ChooseSyncCommand(isNvidia);
      ghost var tail := if isNvidia then [] else [NoGpuMessage];
      SentAppend(streamId, sent, tail);
      AppendAssoc(old(http.wire), Sent(streamId, sent), Sent(streamId, tail));
      assert sent + tail == PreparationMessages(d, babelfishDir);
    }

    /** The sync command; without a GPU the CPU wheel index is added and
        announced. */
    method ChooseSyncCommand(isNvidia: bool) returns (cmd: seq<string>)
      modifies http
      ensures cmd == SyncCommand(isNvidia)
      ensures http.wire == old(http.wire) + Sent(streamId, if isNvidia then [] else [NoGpuMessage])
    {
      cmd := [UvCmd, "sync"];
      if !isNvidia {
        cmd := cmd + ["--extra-index-url", CpuIndexUrl];
        SendUpdate(NoGpuMessage);
        assert Sent(streamId, [NoGpuMessage]) == Sent(streamId, []) + Update(streamId, NoGpuMessage, BootstrappingState);
      }
    }

    /** The bootstrap task: prepare, sync, announce the engine, close the
        connection and hand the process over to the engine. */
    method RunBootstrap(host: Host, babelfishDir: string) returns (h: Handoff)
      modifies http
      ensures http.wire == old(http.wire) + BootstrapRun(streamId, host, babelfishDir).wire
      ensures h == BootstrapRun(streamId, host, babelfishDir).handoff
    {
      var isNvidia, cmd := Prepare(host, babelfishDir);
      h := SyncAndHandOff(cmd, host, babelfishDir);
      AppendAssoc(old(http.wire), Sent(streamId, PreparationMessages(Detect(host.forceCpu, host.probe), babelfishDir)),
        SyncOutcome(streamId, host.spawn(cmd), host, babelfishDir).wire);
    }

    /** `uv sync`, its report, and the end of the run. */
    method SyncAndHandOff(cmd: seq<string>, host: Host, babelfishDir: string) returns (h: Handoff)
      modifies http
      ensures http.wire == old(http.wire) + SyncOutcome(streamId, host.spawn(cmd), host, babelfishDir).wire
      ensures h == SyncOutcome(streamId, host.spawn(cmd), host, babelfishDir).handoff
    {
      var ret := RunCommand(cmd, host.spawn);
      if ret.Failure? {
        SendUpdate("Error: " + ret.error);
        SentSnoc(streamId, [], "Error: " + ret.error);
        assert [] + ["Error: " + ret.error] == ["Error: " + ret.error];
        return NoHandoff;
      }
      ghost var sent := ForwardedLines(host.spawn(cmd).value.output);
      if ret.value != 0 {
        SendUpdate(SyncFailedMessage);
        SendStep(old(http.wire), streamId, sent, SyncFailedMessage);
        sent := sent + [SyncFailedMessage];
      }
      SendUpdate(StartingEngine);
      SendStep(old(http.wire), streamId, sent, StartingEngine);
      sent := sent + [StartingEngine];
      assert sent == ForwardedLines(host.spawn(cmd).value.output)
        + (if ret.value != 0 then [SyncFailedMessage] else []) + [StartingEngine];
      SentShape(streamId, sent);
      h := Close(host, babelfishDir);
      if streamId.Some? {
        AppendAssoc(old(http.wire), Sent(streamId, sent), Closing(streamId.value, host, babelfishDir).wire);
      } else {
        assert old(http.wire) + [] == old(http.wire);
      }
    }

    /** End of stream, connection close and the handoff itself. */
    method Close(host: Host, babelfishDir: string) returns (h: Handoff)
      modifies http
      ensures streamId.None? ==> http.wire == old(http.wire) && h == NoHandoff
      ensures streamId.Some? ==> http.wire == old(http.wire) + Closing(streamId.value, host, babelfishDir).wire
      ensures streamId.Some? ==> h == Closing(streamId.value, host, babelfishDir).handoff
    {
      if streamId.None? {
        return NoHandoff;
      }
      http.SendStreamData(streamId.value, Raw(""), true);
      http.Close(0);
      if host.handoffError.Some? {
        SendUpdate("Error: " + host.handoffError.value);
        SentSnoc(streamId, [], "Error: " + host.handoffError.value);
        assert [] + ["Error: " + host.handoffError.value] == ["Error: " + host.handoffError.value];
        return NoHandoff;
      }
      h := HandoffFor(host.platform, babelfishDir);
    }
  }

  // -------------------------------------------------------------- routing

  /** The header list as a dictionary: a later value for a name wins. */
  function HeaderMap(headers: seq<(string, string)>): map<string, string>
  {
    if |headers| == 0 then map[]
    else HeaderMap(headers[..|headers| - 1])[headers[|headers| - 1].0 := headers[|headers| - 1].1]
  }

  /** A name is in the dictionary iff some header has it, and its value is
      the one of the last such header. */
  lemma {:induction false} HeaderMapLastWins(headers: seq<(string, string)>, name: string)
    ensures name in HeaderMap(headers) <==> exists i :: 0 <= i < |headers| && headers[i].0 == name
    ensures forall i :: (0 <= i < |headers| && headers[i].0 == name
      && (forall j :: i < j < |headers| ==> headers[j].0 != name)) ==>
        (name in HeaderMap(headers) && HeaderMap(headers)[name] == headers[i].1)
  {
    if |headers| > 0 {
      var init := headers[..|headers| - 1];
      HeaderMapLastWins(init, name);
      if exists i :: 0 <= i < |headers| && headers[i].0 == name {
        var i :| 0 <= i < |headers| && headers[i].0 == name;
        if i < |init| {
          assert init[i].0 == name;
        }
      }
      if name in HeaderMap(init) {
        var i :| 0 <= i < |init| && init[i].0 == name;
        assert headers[i].0 == name;
      }
      forall i | 0 <= i < |headers| && headers[i].0 == name
        && (forall j :: i < j < |headers| ==> headers[j].0 != name)
        ensures name in HeaderMap(headers) && HeaderMap(headers)[name] == headers[i].1
      {
        if i < |init| {
          assert init[i] == headers[i];
          assert forall j :: i < j < |init| ==> init[j] == headers[j];
        }
      }
    }
  }

  function Lookup(h: map<string, string>, name: string): Option<string>
  {
    if name in h then Some(h[name]) else None
  }

  /** The status answered to a request: 200 for a WebTransport CONNECT to
      "/config" or "/", 404 for one to any other path, 400 otherwise. */
  function Route(h: map<string, string>): nat
  {
    if Lookup(h, ":method") == Some("CONNECT") && Lookup(h, ":protocol") == Some("webtransport") then
      if Lookup(h, ":path") == Some("/config") || Lookup(h, ":path") == Some("/") then 200 else 404
    else 400
  }

  function StatusText(status: nat): string
  {
    NatToString(status)
  }

  /** The response headers: the status, and the WebTransport draft for a 200. */
  function ResponseHeaders(status: nat): seq<(string, string)>
  {
    [(":status", StatusText(status))] + (if status == 200 then [("sec-webtransport-http3-draft", "draft02")] else [])
  }

  /** The server side of one QUIC connection. */
  class WebTransportProtocol {
    const http: Connection
    var handler: BootstrapHandler?

    predicate Valid()
      reads this, handler
    {
      handler != null ==> handler.http == http && handler.Valid()
    }

    constructor(http: Connection)
      ensures this.http == http && handler == null && Valid()
    {
      this.http := http;
      handler := null;
    }

    method SendResponse(streamId: nat, status: nat, endStream: bool)
      modifies http
      ensures http.wire == old(http.wire) + [HeadersSent(streamId, ResponseHeaders(status), endStream)]
    {
      var headers := [(":status", StatusText(status))];
      if status == 200 {
        headers := headers + [("sec-webtransport-http3-draft", "draft02")];
      }
      assert headers == ResponseHeaders(status);
      http.SendHeaders(streamId, headers, endStream);
    }

    /** Accepts a WebTransport session on "/config" or "/" with a fresh
        handler, replacing any earlier one; refuses other paths. */
    method HandshakeWebTransport(streamId: nat, headers: map<string, string>)
      requires Lookup(headers, ":method") == Some("CONNECT") && Lookup(headers, ":protocol") == Some("webtransport")
      modifies this, http
      ensures Route(headers) == 200 ==> (fresh(handler) && handler.sessionId == streamId
        && handler.http == http && handler.streamId.None? && handler.tasksCreated == 0)
      ensures Route(headers) != 200 ==> handler == old(handler)
      ensures http.wire == old(http.wire)
        + [HeadersSent(streamId, ResponseHeaders(Route(headers)), Route(headers) != 200)]
    {
      var path := Lookup(headers, ":path");
      if path == Some("/config") || path == Some("/") {
        handler := new BootstrapHandler(streamId, http);
        SendResponse(streamId, 200, false);
      } else {
        SendResponse(streamId, 404, true);
      }
    }

    /** Answers request headers, then forwards every event to the current
        handler. */
    method H3EventReceived(event: H3Event)
      requires Valid()
      modifies this, http, handler
      ensures Valid()
      ensures event.HeadersReceived? ==>
        var status := Route(HeaderMap(event.headers));
        http.wire == old(http.wire) + [HeadersSent(event.streamId, ResponseHeaders(status), status != 200)]
        && (status == 200 ==> (fresh(handler) && handler.sessionId == event.streamId
            && handler.streamId.None? && handler.tasksCreated == 0))
        && (status != 200 ==> handler == old(handler))
      ensures !event.HeadersReceived? ==> http.wire == old(http.wire) && handler == old(handler)
      ensures event.StreamDataReceived? && handler != null && old(handler.streamId).None? ==>
        handler.streamId == Some(event.streamId) && handler.tasksCreated == 1
      ensures !event.HeadersReceived? && handler != null && !(event.StreamDataReceived? && old(handler.streamId).None?) ==>
        handler.streamId == old(handler.streamId) && handler.tasksCreated == old(handler.tasksCreated)
    {
      if event.HeadersReceived? {
        var headers: map<string, string> := map[];
        for i := 0 to |event.headers|
          invariant headers == HeaderMap(event.headers[..i])
        {
          assert event.headers[..i + 1][..i] == event.headers[..i];
          headers := headers[event.headers[i].0 := event.headers[i].1];
        }
        assert event.headers[..|event.headers|] == event.headers;
        var requestMethod := Lookup(headers, ":method");
        var protocol := Lookup(headers, ":protocol");
        if requestMethod == Some("CONNECT") && protocol == Some("webtransport") {
          HandshakeWebTransport(event.streamId, headers);
        } else {
          SendResponse(event.streamId, 400, true);
        }
      }
      if handler != null {
        handler.H3EventReceived(event);
      }
    }
  }

  // ------------------------------------------------------ engine directory

  /** A resolved path as its components; the root has none. */
  type Path = seq<string>

  function Parent(p: Path): Path
  {
    if |p| == 0 then p else p[..|p| - 1]
  }

  /** The `k`-th parent; the root is its own parent. */
  function Ancestor(p: Path, k: nat): Path
  {
    if k == 0 then p else Parent(Ancestor(p, k - 1))
  }

  /** The development search from level `from` up to level 8. */
  function DevSearch(scriptDir: Path, from: nat, dirs: set<Path>): Option<Path>
    decreases 9 - from
  {
    if from > 8 then None
    else if Ancestor(scriptDir, from) + ["babelfish"] in dirs then Some(Ancestor(scriptDir, from) + ["babelfish"])
    else DevSearch(scriptDir, from + 1, dirs)
  }

  /** The engine directory: next to the scripts directory when that exists,
      else the nearest "babelfish" directory among the 8 levels above the
      scripts directory, else the production location regardless. */
  function BabelfishDir(scriptDir: Path, existing: set<Path>, dirs: set<Path>): Path
  {
    var prod := Parent(scriptDir) + ["babelfish"];
    if prod in existing then prod else DevSearch(scriptDir, 1, dirs).GetOr(prod)
  }

  /** `k` levels up lies a "babelfish" directory. */
  predicate DevHit(scriptDir: Path, k: nat, dirs: set<Path>)
  {
    Ancestor(scriptDir, k) + ["babelfish"] in dirs
  }

  /** Level `k` is the first hit at or above level `from`, within 8 levels. */
  predicate FirstHit(scriptDir: Path, from: nat, k: nat, dirs: set<Path>)
  {
    from <= k <= 8 && DevHit(scriptDir, k, dirs) && forall j :: from <= j < k ==> !DevHit(scriptDir, j, dirs)
  }

  /** The search finds the nearest "babelfish" directory at most 8 levels up. */
  lemma {:induction false} DevSearchNearest(scriptDir: Path, from: nat, dirs: set<Path>, d: Path)
    requires from >= 1
    ensures DevSearch(scriptDir, from, dirs) == Some(d) <==>
      exists k :: FirstHit(scriptDir, from, k, dirs) && d == Ancestor(scriptDir, k) + ["babelfish"]
    decreases 9 - from
  {
    if from <= 8 {
      DevSearchNearest(scriptDir, from + 1, dirs, d);
      if DevHit(scriptDir, from, dirs) {
        if DevSearch(scriptDir, from, dirs) == Some(d) {
          assert FirstHit(scriptDir, from, from, dirs);
        }
        if exists k :: FirstHit(scriptDir, from, k, dirs) && d == Ancestor(scriptDir, k) + ["babelfish"] {
          var k :| FirstHit(scriptDir, from, k, dirs) && d == Ancestor(scriptDir, k) + ["babelfish"];
          assert k == from;
        }
      } else {
        if exists k :: FirstHit(scriptDir, from, k, dirs) && d == Ancestor(scriptDir, k) + ["babelfish"] {
          var k :| FirstHit(scriptDir, from, k, dirs) && d == Ancestor(scriptDir, k) + ["babelfish"];
          assert FirstHit(scriptDir, from + 1, k, dirs);
        }
        if DevSearch(scriptDir, from, dirs) == Some(d) {
          var k :| FirstHit(scriptDir, from + 1, k, dirs) && d == Ancestor(scriptDir, k) + ["babelfish"];
          assert FirstHit(scriptDir, from, k, dirs);
        }
      }
    }
  }

  method LocateBabelfishDir(scriptDir: Path, existing: set<Path>, dirs: set<Path>) returns (dir: Path)
    ensures dir == BabelfishDir(scriptDir, existing, dirs)
  {
    dir := Parent(scriptDir) + ["babelfish"];
    if dir !in existing {
      var candidate := scriptDir;
      var i := 0;
      while i < 8
        invariant 0 <= i <= 8 && candidate == Ancestor(scriptDir, i)
        invariant DevSearch(scriptDir, 1, dirs) == DevSearch(scriptDir, i + 1, dirs)
      {
        candidate := Parent(candidate);
        if candidate + ["babelfish"] in dirs {
          dir := candidate + ["babelfish"];
          return;
        }
        i := i + 1;
      }
    }
  }
}
