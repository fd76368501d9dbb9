/** The application's configuration (`domain/model/VogonConfig.kt`): nested
    records whose fields carry the declared defaults. Constructor default
    parameters play the role of Kotlin's, so `Hardware()` is the default
    hardware section. */
module VogonConfigModel {
  import opened Wrappers
  import opened Text

  /** A Kotlin `Double`, only ever copied: its bit pattern. */
  datatype Double = Double(bits: bv64)

  /** How recognised text is typed into other applications. Only the
      clipboard strategy is known to the mapper. */
  datatype InputStrategy = Clipboard

  /** `InputStrategy.value`, the name used in the backend's configuration. */
  function StrategyValue(s: InputStrategy): string
  {
    match s
    case Clipboard => "clipboard"
  }

  /** `InputStrategy.entries`. */
  const InputStrategies: seq<InputStrategy> := [Clipboard]

  datatype Hardware = Hardware(
    device: string := "auto",
    autoDetect: bool := true,
    microphoneName: Option<string> := None,
    onnxModelDir: Option<string> := None,
    onnxExecutionProvider: Option<string> := None,
    quantization: Option<string> := None,
    activeDevice: Option<string> := None,
    activeDeviceName: Option<string> := None,
    vramTotalGb: Option<Double> := None,
    vramUsedBaselineGb: Option<Double> := None,
    vramUsedModelGb: Option<Double> := None)

  datatype Performance = Performance(
    ghostThrottleMs: Int64 := 100,
    ghostWindowS: Option<Double> := None,
    minPaddingS: Option<Double> := None,
    tier: string := "auto")

  datatype Pipeline = Pipeline(
    silenceThresholdMs: Int64 := 400,
    updateIntervalMs: Int64 := 100,
    performance: Performance := Performance())

  datatype SystemInput = SystemInput(
    enabled: bool := false,
    typeGhost: bool := false,
    strategy: InputStrategy := Clipboard)

  datatype Voice = Voice(
    wakeword: Option<string> := None,
    stopWakeword: Option<string> := None,
    wakewordSensitivity: Option<Double> := None,
    stopWakewordSensitivity: Option<Double> := None,
    stopWords: Option<seq<string>> := None)

  datatype Shortcuts = Shortcuts(
    toggleListening: string := "Ctrl+Space",
    forceListen: string := "Left Ctrl")

  datatype ActivationDetection = ActivationDetection(
    iconOnly: bool := false,
    overlayMode: bool := false)

  datatype TranscriptionWindow = TranscriptionWindow(
    alwaysOnTop: bool := true)

  datatype Ui = Ui(
    verbose: bool := false,
    showTimestamps: bool := true,
    notifications: bool := true,
    shortcuts: Shortcuts := Shortcuts(),
    activationDetection: ActivationDetection := ActivationDetection(),
    transcriptionWindow: TranscriptionWindow := TranscriptionWindow())

  datatype Server = Server(
    host: string := "127.0.0.1",
    port: Int64 := 8123)

  datatype Cache = Cache(
    cacheDir: Option<string> := None)

  datatype VogonConfig = VogonConfig(
    hardware: Hardware := Hardware(),
    pipeline: Pipeline := Pipeline(),
    systemInput: SystemInput := SystemInput(),
    voice: Voice := Voice(),
    ui: Ui := Ui(),
    server: Server := Server(),
    cache: Cache := Cache())

  /** `VogonConfig()`: the configuration before anything is loaded. */
  function DefaultConfig(): (c: VogonConfig)
    ensures c.hardware.device == "auto" && c.hardware.autoDetect
    ensures c.pipeline.silenceThresholdMs == 400 && c.pipeline.updateIntervalMs == 100
    ensures c.pipeline.performance.ghostThrottleMs == 100 && c.pipeline.performance.tier == "auto"
    ensures c.server.host == "127.0.0.1" && c.server.port == 8123
    ensures c.ui.shortcuts.toggleListening == "Ctrl+Space" && c.ui.shortcuts.forceListen == "Left Ctrl"
    ensures !c.ui.verbose && c.ui.showTimestamps && c.ui.notifications && c.ui.transcriptionWindow.alwaysOnTop
    ensures !c.ui.activationDetection.iconOnly && !c.ui.activationDetection.overlayMode
    ensures !c.systemInput.enabled && !c.systemInput.typeGhost && c.systemInput.strategy == Clipboard
    ensures c.hardware.microphoneName.None? && c.hardware.onnxModelDir.None? && c.hardware.onnxExecutionProvider.None?
    ensures c.hardware.quantization.None? && c.hardware.activeDevice.None? && c.hardware.activeDeviceName.None?
    ensures c.hardware.vramTotalGb.None? && c.hardware.vramUsedBaselineGb.None? && c.hardware.vramUsedModelGb.None?
    ensures c.pipeline.performance.ghostWindowS.None? && c.pipeline.performance.minPaddingS.None?
    ensures c.voice.wakeword.None? && c.voice.stopWakeword.None? && c.voice.stopWords.None?
    ensures c.voice.wakewordSensitivity.None? && c.voice.stopWakewordSensitivity.None?
    ensures c.cache.cacheDir.None?
  {
    VogonConfig()
  }
}

/** The mapping between the backend's configuration document (the
    `Babelfish` records, whose fields keep the document's snake_case keys)
    and the application's configuration
    (`infrastructure/mapper/VogonConfigMapper.kt`). In the document every
    section, and the nested performance, shortcuts, activation detection and
    transcription window sections, may be absent. */
module ConfigMapper {
  import opened Wrappers
  import opened Text
  import opened VogonConfigModel

  datatype BHardware = BHardware(
    device: string, auto_detect: bool,
    microphone_name: Option<string>, onnx_model_dir: Option<string>,
    onnx_execution_provider: Option<string>, quantization: Option<string>,
    active_device: Option<string>, active_device_name: Option<string>,
    vram_total_gb: Option<Double>, vram_used_baseline_gb: Option<Double>, vram_used_model_gb: Option<Double>)

  datatype BPerformance = BPerformance(
    ghost_throttle_ms: Int64, ghost_window_s: Option<Double>, min_padding_s: Option<Double>, tier: string)

  datatype BPipeline = BPipeline(
    silence_threshold_ms: Int64, update_interval_ms: Int64, performance: Option<BPerformance>)

  datatype BSystemInput = BSystemInput(enabled: bool, type_ghost: bool, strategy: string)

  datatype BVoice = BVoice(
    wakeword: Option<string>, stop_wakeword: Option<string>,
    wakeword_sensitivity: Option<Double>, stop_wakeword_sensitivity: Option<Double>,
    stop_words: Option<seq<string>>)

  datatype BShortcuts = BShortcuts(toggle_listening: string, force_listen: string)

  datatype BActivationDetection = BActivationDetection(icon_only: bool, overlay_mode: bool)

  datatype BTranscriptionWindow = BTranscriptionWindow(always_on_top: bool)

  datatype BUi = BUi(
    verbose: bool, show_timestamps: bool, notifications: bool,
    shortcuts: Option<BShortcuts>,
    activation_detection: Option<BActivationDetection>,
    transcription_window: Option<BTranscriptionWindow>)

  datatype BServer = BServer(host: string, port: Int64)

  datatype BCache = BCache(cache_dir: Option<string>)

  datatype Babelfish = Babelfish(
    hardware: Option<BHardware>, pipeline: Option<BPipeline>, system_input: Option<BSystemInput>,
    voice: Option<BVoice>, ui: Option<BUi>, server: Option<BServer>, cache: Option<BCache>)

  // ------------------------------------------------------------- toDomain

  /** `InputStrategy.entries.find { it.value == name } ?: CLIPBOARD`. */
  function StrategyNamed(name: string): (s: InputStrategy)
    ensures (exists k :: 0 <= k < |InputStrategies| && StrategyValue(InputStrategies[k]) == name) ==> StrategyValue(s) == name
    ensures (forall k :: 0 <= k < |InputStrategies| ==> StrategyValue(InputStrategies[k]) != name) ==> s == Clipboard
  {
    FindStrategy(InputStrategies, name).GetOr(Clipboard)
  }

  function FindStrategy(entries: seq<InputStrategy>, name: string): (r: Option<InputStrategy>)
    ensures r.Some? ==> r.value in entries && StrategyValue(r.value) == name
    ensures r.None? ==> forall k :: 0 <= k < |entries| ==> StrategyValue(entries[k]) != name
  {
    if |entries| == 0 then None
    else if StrategyValue(entries[0]) == name then Some(entries[0])
    else FindStrategy(entries[1..], name)
  }

  function HardwareToDomain(h: BHardware): Hardware
  {
    Hardware(h.device, h.auto_detect, h.microphone_name, h.onnx_model_dir, h.onnx_execution_provider,
      h.quantization, h.active_device, h.active_device_name,
      h.vram_total_gb, h.vram_used_baseline_gb, h.vram_used_model_gb)
  }

  function PerformanceToDomain(p: Option<BPerformance>): Performance
  {
    match p
    case None => Performance()
    case Some(perf) => Performance(perf.ghost_throttle_ms, perf.ghost_window_s, perf.min_padding_s, perf.tier)
  }

  function PipelineToDomain(p: BPipeline): Pipeline
  {
    Pipeline(p.silence_threshold_ms, p.update_interval_ms, PerformanceToDomain(p.performance))
  }

  function SystemInputToDomain(si: BSystemInput): SystemInput
  {
    SystemInput(si.enabled, si.type_ghost, StrategyNamed(si.strategy))
  }

  function VoiceToDomain(v: BVoice): Voice
  {
    Voice(v.wakeword, v.stop_wakeword, v.wakeword_sensitivity, v.stop_wakeword_sensitivity, v.stop_words)
  }

  function UiToDomain(u: BUi): Ui
  {
    Ui(u.verbose, u.show_timestamps, u.notifications,
      match u.shortcuts
      case None => Shortcuts()
      case Some(s) => Shortcuts(s.toggle_listening, s.force_listen),
      match u.activation_detection
      case None => ActivationDetection()
      case Some(ad) => ActivationDetection(ad.icon_only, ad.overlay_mode),
      match u.transcription_window
      case None => TranscriptionWindow()
      case Some(tw) => TranscriptionWindow(tw.always_on_top))
  }

  /** `Babelfish.toDomain`: every absent section, top-level or nested, becomes
      that section's default; a strategy name no `InputStrategy` carries
      becomes CLIPBOARD. */
  function ToDomain(b: Babelfish): (c: VogonConfig)
    ensures b.hardware.None? ==> c.hardware == Hardware()
    ensures b.pipeline.None? ==> c.pipeline == Pipeline()
    ensures b.system_input.None? ==> c.systemInput == SystemInput()
    ensures b.voice.None? ==> c.voice == Voice()
    ensures b.ui.None? ==> c.ui == Ui()
    ensures b.server.None? ==> c.server == Server()
    ensures b.cache.None? ==> c.cache == Cache()
    ensures b.pipeline.Some? && b.pipeline.value.performance.None? ==> c.pipeline.performance == Performance()
    ensures b.ui.Some? && b.ui.value.shortcuts.None? ==> c.ui.shortcuts == Shortcuts()
    ensures b.ui.Some? && b.ui.value.activation_detection.None? ==> c.ui.activationDetection == ActivationDetection()
    ensures b.ui.Some? && b.ui.value.transcription_window.None? ==> c.ui.transcriptionWindow == TranscriptionWindow()
    ensures b.system_input.Some? && b.system_input.value.strategy != "clipboard" ==> c.systemInput.strategy == Clipboard
  {
    VogonConfig(
      match b.hardware case None => Hardware() case Some(h) => HardwareToDomain(h),
      match b.pipeline case None => Pipeline() case Some(p) => PipelineToDomain(p),
      match b.system_input case None => SystemInput() case Some(si) => SystemInputToDomain(si),
      match b.voice case None => Voice() case Some(v) => VoiceToDomain(v),
      match b.ui case None => Ui() case Some(u) => UiToDomain(u),
      match b.server case None => Server() case Some(s) => Server(s.host, s.port),
      match b.cache case None => Cache() case Some(cc) => Cache(cc.cache_dir))
  }

  /** An empty document yields the default configuration. */
  lemma EmptyDocumentGivesDefaults()
    ensures ToDomain(Babelfish(None, None, None, None, None, None, None)) == DefaultConfig()
  {
  }

  // ------------------------------------------------------- toInfrastructure

  /** Every section and nested section is present. */
  predicate Complete(b: Babelfish)
  {
    b.hardware.Some? && b.pipeline.Some? && b.system_input.Some? && b.voice.Some?
    && b.ui.Some? && b.server.Some? && b.cache.Some?
    && b.pipeline.value.performance.Some?
    && b.ui.value.shortcuts.Some? && b.ui.value.activation_detection.Some? && b.ui.value.transcription_window.Some?
  }

  /** `VogonConfig.toInfrastructure`: every section is written out. */
  function ToInfrastructure(c: VogonConfig): (b: Babelfish)
    ensures Complete(b)
    ensures b.system_input.value.strategy == StrategyValue(c.systemInput.strategy)
  {
    var h := c.hardware;
    var p := c.pipeline;
    var perf := p.performance;
    var v := c.voice;
    var u := c.ui;
    Babelfish(
      Some(BHardware(h.device, h.autoDetect, h.microphoneName, h.onnxModelDir, h.onnxExecutionProvider,
        h.quantization, h.activeDevice, h.activeDeviceName, h.vramTotalGb, h.vramUsedBaselineGb, h.vramUsedModelGb)),
      Some(BPipeline(p.silenceThresholdMs, p.updateIntervalMs,
        Some(BPerformance(perf.ghostThrottleMs, perf.ghostWindowS, perf.minPaddingS, perf.tier)))),
      Some(BSystemInput(c.systemInput.enabled, c.systemInput.typeGhost, StrategyValue(c.systemInput.strategy))),
      Some(BVoice(v.wakeword, v.stopWakeword, v.wakewordSensitivity, v.stopWakewordSensitivity, v.stopWords)),
      Some(BUi(u.verbose, u.showTimestamps, u.notifications,
        Some(BShortcuts(u.shortcuts.toggleListening, u.shortcuts.forceListen)),
        Some(BActivationDetection(u.activationDetection.iconOnly, u.activationDetection.overlayMode)),
        Some(BTranscriptionWindow(u.transcriptionWindow.alwaysOnTop)))),
      Some(BServer(c.server.host, c.server.port)),
      Some(BCache(c.cache.cacheDir)))
  }

  /** The strategy names are distinct, so a name picks its strategy back. */
  lemma StrategyRoundTrip(s: InputStrategy)
    ensures StrategyNamed(StrategyValue(s)) == s
  {
  }

  /** Writing a configuration out and reading it back changes nothing. */
  lemma DomainRoundTrip(c: VogonConfig)
    ensures ToDomain(ToInfrastructure(c)) == c
  {
    StrategyRoundTrip(c.systemInput.strategy);
  }

  /** A complete document whose strategy is known survives a read and a
      write unchanged: no field is computed, defaulted or combined. */
  lemma InfrastructureRoundTrip(b: Babelfish)
    requires Complete(b)
    requires exists k :: 0 <= k < |InputStrategies| && StrategyValue(InputStrategies[k]) == b.system_input.value.strategy
    ensures ToInfrastructure(ToDomain(b)) == b
  {
  }

  /** An unknown strategy name does not survive: it is written back as
      "clipboard". */
  lemma UnknownStrategyIsNormalised(b: Babelfish)
    requires Complete(b) && b.system_input.value.strategy != "clipboard"
    ensures ToInfrastructure(ToDomain(b)).system_input.value.strategy == "clipboard"
    ensures ToInfrastructure(ToDomain(b)) == b.(system_input := Some(b.system_input.value.(strategy := "clipboard")))
  {
  }
}
