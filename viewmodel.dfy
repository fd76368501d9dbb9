/** `MainViewModel`: the presentation state over the client. It keeps a
    draft configuration in step with the server's, resets when the backend
    initialises, counts activations, and records the calls it makes on the
    client and the backend controller. */
module Presentation {
  import opened Wrappers
  import opened Text
  import Client
  import ConfigMapper

  type Babelfish = ConfigMapper.Babelfish

  datatype Microphone = Microphone(index: Int32, name: string, isDefault: bool)

  datatype HardwareDevice = HardwareDevice(id: string, name: string)

  const Transcribing: string := "Transcribing..."

  /** Activations after which the transcribing text starts to vary. */
  const PlainActivations: nat := 10

  // -------------------------------------------------------- draft sync

  /** The draft takes a remote configuration only while it is empty. */
  function SyncDraft(draft: Option<Babelfish>, remote: Option<Babelfish>): Option<Babelfish>
  {
    if remote.Some? && draft.None? then remote else draft
  }

  /** Remote configurations arriving one after another, oldest first. */
  function SyncAll(draft: Option<Babelfish>, remotes: seq<Option<Babelfish>>): Option<Babelfish>
    decreases |remotes|
  {
    if |remotes| == 0 then draft else SyncAll(SyncDraft(draft, remotes[0]), remotes[1..])
  }

  /** The first configuration that is present, if any. */
  function FirstPresent(remotes: seq<Option<Babelfish>>): (r: Option<Babelfish>)
    ensures r.Some? <==> exists k :: 0 <= k < |remotes| && remotes[k].Some?
    decreases |remotes|
  {
    if |remotes| == 0 then None
    else if remotes[0].Some? then remotes[0]
    else
      var r := FirstPresent(remotes[1..]);
      assert forall k :: 1 <= k < |remotes| ==> remotes[k] == remotes[1..][k - 1];
      r
  }

  /** A draft that is present survives every remote update. */
  lemma {:induction false} PresentDraftKept(draft: Babelfish, remotes: seq<Option<Babelfish>>)
    ensures SyncAll(Some(draft), remotes) == Some(draft)
    decreases |remotes|
  {
    if |remotes| > 0 {
      PresentDraftKept(draft, remotes[1..]);
    }
  }

  /** After a reset clears the draft, the draft is the first remote
      configuration that arrives, and later ones do not replace it. */
  lemma {:induction false} DraftIsFirstRemote(remotes: seq<Option<Babelfish>>)
    ensures SyncAll(None, remotes) == FirstPresent(remotes)
    decreases |remotes|
  {
    if |remotes| > 0 {
      if remotes[0].Some? {
        PresentDraftKept(remotes[0].value, remotes[1..]);
      } else {
        DraftIsFirstRemote(remotes[1..]);
      }
    }
  }

  // ---------------------------------------------------------- the view model

  class MainViewModel {
    var draftConfig: Option<Babelfish>
    var activationCount: nat
    var transcribingText: string
    const allPossibleStates: seq<string>
    var microphoneList: seq<Microphone>
    var hardwareList: seq<HardwareDevice>
    var wakewordList: seq<string>
    var isMicTesting: bool
    /** Calls made on the client and the backend controller, in order. */
    var connectCalls: nat
    var savedConfigs: seq<Babelfish>
    var micTestRequests: seq<bool>
    var restarts: nat

    /** The transcribing text is the plain one for the first ten
        activations and always one of the possible states. */
    ghost predicate Valid()
      reads this
    {
      && |allPossibleStates| > 0
      && allPossibleStates[|allPossibleStates| - 1] == Transcribing
      && transcribingText in allPossibleStates
      && (activationCount <= PlainActivations ==> transcribingText == Transcribing)
    }

    /** Construction starts the client's connection once. `loadingStrings`
        are the interface's themed loading texts. */
    constructor (loadingStrings: seq<string>)
      ensures Valid()
      ensures allPossibleStates == loadingStrings + [Transcribing]
      ensures connectCalls == 1
      ensures draftConfig.None? && activationCount == 0 && transcribingText == Transcribing
      ensures microphoneList == [] && hardwareList == [] && wakewordList == [] && !isMicTesting
      ensures savedConfigs == [] && micTestRequests == [] && restarts == 0
    {
      draftConfig := None;
      activationCount := 0;
      transcribingText := Transcribing;
      allPossibleStates := loadingStrings + [Transcribing];
      microphoneList := [];
      hardwareList := [];
      wakewordList := [];
      isMicTesting := false;
      connectCalls := 1;
      savedConfigs := [];
      micTestRequests := [];
      restarts := 0;
    }

    /** The client's configuration flow emitted `remote`. */
    method RemoteConfigChanged(remote: Option<Babelfish>)
      modifies this
      ensures draftConfig == SyncDraft(old(draftConfig), remote)
      ensures activationCount == old(activationCount) && transcribingText == old(transcribingText)
      ensures savedConfigs == old(savedConfigs) && restarts == old(restarts) && connectCalls == old(connectCalls)
      ensures microphoneList == old(microphoneList) && hardwareList == old(hardwareList)
      ensures wakewordList == old(wakewordList) && isMicTesting == old(isMicTesting)
      ensures micTestRequests == old(micTestRequests)
    {
      if remote.Some? && draftConfig.None? {
        draftConfig := remote;
      }
    }

    /** The backend's server status changed: initialising resets the
        counter, the text and the draft; other statuses change nothing. */
    method ServerStatusChanged(status: Client.ServerStatus)
      requires Valid()
      modifies this
      ensures Valid()
      ensures status == Client.Initializing ==>
        draftConfig.None? && activationCount == 0 && transcribingText == Transcribing
      ensures status != Client.Initializing ==>
        draftConfig == old(draftConfig) && activationCount == old(activationCount)
        && transcribingText == old(transcribingText)
      ensures savedConfigs == old(savedConfigs) && restarts == old(restarts) && connectCalls == old(connectCalls)
      ensures microphoneList == old(microphoneList) && hardwareList == old(hardwareList)
      ensures wakewordList == old(wakewordList) && isMicTesting == old(isMicTesting)
      ensures micTestRequests == old(micTestRequests)
    {
      if status == Client.Initializing {
        activationCount := 0;
        transcribingText := Transcribing;
        draftConfig := None;
      }
    }

    /** The client's VAD flow emitted `state`: every Listening counts one
        activation, and past the tenth the text is drawn at random from the
        possible states. */
    method VadChanged(state: Client.VadState)
      requires Valid()
      modifies this
      ensures Valid()
      ensures state == Client.Listening ==> activationCount == old(activationCount) + 1
      ensures state == Client.Listening && activationCount <= PlainActivations ==> transcribingText == Transcribing
      ensures state != Client.Listening ==>
        activationCount == old(activationCount) && transcribingText == old(transcribingText)
      ensures draftConfig == old(draftConfig)
      ensures savedConfigs == old(savedConfigs) && restarts == old(restarts) && connectCalls == old(connectCalls)
      ensures microphoneList == old(microphoneList) && hardwareList == old(hardwareList)
      ensures wakewordList == old(wakewordList) && isMicTesting == old(isMicTesting)
      ensures micTestRequests == old(micTestRequests)
    {
      if state == Client.Listening {
        activationCount := activationCount + 1;
        if activationCount > PlainActivations {
          var i :| 0 <= i < |allPossibleStates|;
          transcribingText := allPossibleStates[i];
        } else {
          transcribingText := Transcribing;
        }
      }
    }

    method UpdateDraft(newConfig: Babelfish)
      modifies this
      ensures draftConfig == Some(newConfig)
      ensures activationCount == old(activationCount) && transcribingText == old(transcribingText)
      ensures savedConfigs == old(savedConfigs) && restarts == old(restarts) && connectCalls == old(connectCalls)
      ensures microphoneList == old(microphoneList) && hardwareList == old(hardwareList)
      ensures wakewordList == old(wakewordList) && isMicTesting == old(isMicTesting)
      ensures micTestRequests == old(micTestRequests)
    {
      draftConfig := Some(newConfig);
    }

    method Reconnect()
      modifies this
      ensures connectCalls == old(connectCalls) + 1
      ensures draftConfig == old(draftConfig) && activationCount == old(activationCount)
      ensures transcribingText == old(transcribingText)
      ensures savedConfigs == old(savedConfigs) && restarts == old(restarts)
      ensures microphoneList == old(microphoneList) && hardwareList == old(hardwareList)
      ensures wakewordList == old(wakewordList) && isMicTesting == old(isMicTesting)
      ensures micTestRequests == old(micTestRequests)
    {
      connectCalls := connectCalls + 1;
    }

    /** `restartBackend`: notifies the client (a no-op there) and restarts
        the backend. */
    method RestartBackend()
      modifies this
      ensures restarts == old(restarts) + 1
      ensures draftConfig == old(draftConfig) && activationCount == old(activationCount)
      ensures transcribingText == old(transcribingText)
      ensures savedConfigs == old(savedConfigs) && connectCalls == old(connectCalls)
      ensures microphoneList == old(microphoneList) && hardwareList == old(hardwareList)
      ensures wakewordList == old(wakewordList) && isMicTesting == old(isMicTesting)
      ensures micTestRequests == old(micTestRequests)
    {
      restarts := restarts + 1;
    }

    /** `saveConfig(config)`: a null configuration sends nothing; a failed
        save is only logged, so the outcome changes no state. */
    method SaveConfig(config: Option<Babelfish>)
      modifies this
      ensures savedConfigs == if config.None? then old(savedConfigs) else old(savedConfigs) + [config.value]
      ensures draftConfig == old(draftConfig) && activationCount == old(activationCount)
      ensures transcribingText == old(transcribingText)
      ensures restarts == old(restarts) && connectCalls == old(connectCalls)
      ensures microphoneList == old(microphoneList) && hardwareList == old(hardwareList)
      ensures wakewordList == old(wakewordList) && isMicTesting == old(isMicTesting)
      ensures micTestRequests == old(micTestRequests)
    {
      if config.None? {
        return;
      }
      savedConfigs := savedConfigs + [config.value];
    }

    /** `saveConfig()` with its default argument, the current draft. */
    method SaveDraft()
      modifies this
      ensures savedConfigs == if old(draftConfig).None? then old(savedConfigs)
                              else old(savedConfigs) + [old(draftConfig).value]
      ensures draftConfig == old(draftConfig) && activationCount == old(activationCount)
      ensures transcribingText == old(transcribingText)
      ensures restarts == old(restarts) && connectCalls == old(connectCalls)
      ensures microphoneList == old(microphoneList) && hardwareList == old(hardwareList)
      ensures wakewordList == old(wakewordList) && isMicTesting == old(isMicTesting)
      ensures micTestRequests == old(micTestRequests)
    {
      SaveConfig(draftConfig);
    }

    /** `loadMicrophones`: the list changes only when the request succeeds. */
    method LoadMicrophones(outcome: Result<seq<Microphone>, string>)
      modifies this
      ensures microphoneList == if outcome.Success? then outcome.value else old(microphoneList)
      ensures hardwareList == old(hardwareList) && wakewordList == old(wakewordList)
      ensures isMicTesting == old(isMicTesting) && draftConfig == old(draftConfig)
      ensures activationCount == old(activationCount) && transcribingText == old(transcribingText)
      ensures savedConfigs == old(savedConfigs) && restarts == old(restarts) && connectCalls == old(connectCalls)
      ensures micTestRequests == old(micTestRequests)
    {
      if outcome.Success? {
        microphoneList := outcome.value;
      }
    }

    method LoadHardware(outcome: Result<seq<HardwareDevice>, string>)
      modifies this
      ensures hardwareList == if outcome.Success? then outcome.value else old(hardwareList)
      ensures microphoneList == old(microphoneList) && wakewordList == old(wakewordList)
      ensures isMicTesting == old(isMicTesting) && draftConfig == old(draftConfig)
      ensures activationCount == old(activationCount) && transcribingText == old(transcribingText)
      ensures savedConfigs == old(savedConfigs) && restarts == old(restarts) && connectCalls == old(connectCalls)
      ensures micTestRequests == old(micTestRequests)
    {
      if outcome.Success? {
        hardwareList := outcome.value;
      }
    }

    method LoadWakewords(outcome: Result<seq<string>, string>)
      modifies this
      ensures wakewordList == if outcome.Success? then outcome.value else old(wakewordList)
      ensures microphoneList == old(microphoneList) && hardwareList == old(hardwareList)
      ensures isMicTesting == old(isMicTesting) && draftConfig == old(draftConfig)
      ensures activationCount == old(activationCount) && transcribingText == old(transcribingText)
      ensures savedConfigs == old(savedConfigs) && restarts == old(restarts) && connectCalls == old(connectCalls)
      ensures micTestRequests == old(micTestRequests)
    {
      if outcome.Success? {
        wakewordList := outcome.value;
      }
    }

    /** `toggleMicTest`: the request is made, and the flag follows it only
        when the client call succeeds. */
    method ToggleMicTest(enabled: bool, outcome: Result<(), string>)
      modifies this
      ensures micTestRequests == old(micTestRequests) + [enabled]
      ensures isMicTesting == if outcome.Success? then enabled else old(isMicTesting)
      ensures microphoneList == old(microphoneList) && hardwareList == old(hardwareList)
      ensures wakewordList == old(wakewordList) && draftConfig == old(draftConfig)
      ensures activationCount == old(activationCount) && transcribingText == old(transcribingText)
      ensures savedConfigs == old(savedConfigs) && restarts == old(restarts) && connectCalls == old(connectCalls)
    {
      micTestRequests := micTestRequests + [enabled];
      if outcome.Success? {
        isMicTesting := enabled;
      }
    }

    /** `saveAndRestart`: the draft is set first, the save is attempted,
        and the backend restarts whether or not the save succeeded. */
    method SaveAndRestart(config: Babelfish)
      modifies this
      ensures draftConfig == Some(config)
      ensures savedConfigs == old(savedConfigs) + [config]
      ensures restarts == old(restarts) + 1
      ensures activationCount == old(activationCount) && transcribingText == old(transcribingText)
      ensures connectCalls == old(connectCalls)
      ensures microphoneList == old(microphoneList) && hardwareList == old(hardwareList)
      ensures wakewordList == old(wakewordList) && isMicTesting == old(isMicTesting)
      ensures micTestRequests == old(micTestRequests)
    {
      UpdateDraft(config);
      SaveConfig(Some(config));
      RestartBackend();
    }
  }
}
