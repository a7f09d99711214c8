/**
 * The `VoiceRecorder` component of components/voicerecorder.tsx, with its
 * `useAudioConfig` and `useStopWatch` hooks: the state variables and refs the
 * handlers change, with the browser reduced to events.
 *
 * Each browser callback is a method: a `dataavailable` or `stop` event of the
 * media recorder, the arrival of the reply to an upload, the end of playback
 * and the delayed start of the introduction clip. The capability queries the
 * handlers make (`navigator.mediaDevices`, the microphone permission,
 * `MediaRecorder.isTypeSupported`, `audio.paused` right after `play()`) are
 * parameters. Streams, object URLs, error logging and styling are not modelled.
 */
module VoiceRecorderModel {
  import opened Wrappers
  import opened RecorderLogic
  import SW = StopWatch

  /** A `MediaRecorder` the component created: its serial number and its format. */
  datatype Recorder = Recorder(serial: nat, mimeType: MimeType)

  /** What an audio element plays: "introduction.mp3" or the object URL of a reply. */
  datatype AudioSource = Introduction | Reply(audio: Blob)

  /** The `onPlayerStop(args)` given to `playAudio`; only the introduction passes one. */
  datatype EndCallback = NoCallback | SetAppReady(ready: bool)

  /** `audioElementRef.current`: its `src`, `paused` and `onended` handler. */
  datatype AudioElement = AudioElement(src: AudioSource, paused: bool, onEnded: Option<EndCallback>)

  /** `audioPlayerState`: "stopped" or "playing". */
  datatype PlayerState = Stopped | Playing

  /** The `onended` handler of the element, if there is an element. */
  function Handler(element: Option<AudioElement>): Option<EndCallback> {
    if element.Some? then element.value.onEnded else None
  }

  /** How a `fetch` to /api/gpt ends. */
  datatype FetchOutcome = Ok(audio: Blob) | NotOk(statusText: string) | NetworkError

  class VoiceRecorder {
    var recorderState: RecorderState
    var loadGptResponse: LoadState
    var playerState: PlayerState
    var appReady: bool
    /** `audioChunkRef.current`. */
    var audioChunks: seq<Chunk>
    /** `supportedMimeType.current`. */
    var supportedMimeType: MimeType
    /** `recorderRef.current`, and whether that recorder's state is not "inactive". */
    var recorderRef: Option<Recorder>
    var refRecording: bool
    var recordersCreated: nat
    /** `stop` events the browser still owes for recorders that were stopped. */
    var pendingStops: nat
    /** The bodies posted to /api/gpt, oldest first, and how many still await a reply. */
    var uploads: seq<seq<FormEntry>>
    var awaiting: nat
    var audioElement: Option<AudioElement>
    const stopwatch: SW.StopWatch

    ghost predicate Valid()
      reads this, stopwatch
    {
      ValidExceptUploads() && (loadGptResponse == Idle <==> uploads == [])
    }

    /** Everything `Valid` asks except that "idle" means nothing was posted yet. */
    ghost predicate ValidExceptUploads()
      reads this, stopwatch
    {
      stopwatch.Valid() &&
      loadGptResponse != Error &&
      awaiting <= |uploads| &&
      (refRecording ==> recorderRef.Some?) &&
      (recorderRef.Some? ==>
         recorderRef.value.mimeType == supportedMimeType && recorderRef.value.serial < recordersCreated) &&
      (audioElement.Some? && !audioElement.value.paused ==> audioElement.value.onEnded.Some?) &&
      (playerState == Playing ==> audioElement.Some? && audioElement.value.onEnded.Some?)
    }

    /**
     * What `startRecorder` leaves behind. With media devices the chunk buffer
     * is emptied; when the microphone is granted and some type is supported,
     * the preferred type is selected and a new recorder in that type, already
     * recording, is put in the ref. Otherwise type and ref are as they were.
     */
    twostate predicate RecorderSetUp(hasMediaDevices: bool, microphoneGranted: bool, supported: set<MimeType>)
      reads this
    {
      audioChunks == (if hasMediaDevices then [] else old(audioChunks)) &&
      var choice := SelectMimeType(supported);
      if hasMediaDevices && microphoneGranted && choice.Some? then
        supportedMimeType == choice.value && refRecording &&
        recorderRef == Some(Recorder(old(recordersCreated), choice.value)) &&
        recordersCreated == old(recordersCreated) + 1
      else
        supportedMimeType == old(supportedMimeType) && refRecording == old(refRecording) &&
        recorderRef == old(recorderRef) && recordersCreated == old(recordersCreated)
    }

    /** The control the page renders for the current state. */
    function View(): Control
      reads this, stopwatch
    {
      SelectView(loadGptResponse, recorderState, appReady, stopwatch.timeInSeconds)
    }

    /** The initial state, after the mount effect has reset the refs. */
    constructor ()
      ensures Valid() && fresh(stopwatch)
      ensures recorderState == RecorderState.Stopped && loadGptResponse == Idle && playerState == PlayerState.Stopped
      ensures !appReady && audioChunks == [] && supportedMimeType == Webm
      ensures recorderRef == None && !refRecording && pendingStops == 0
      ensures uploads == [] && awaiting == 0 && audioElement == None
      ensures stopwatch.timeInSeconds == 0 && stopwatch.timerRef == None && stopwatch.live == {}
    {
      recorderState := RecorderState.Stopped;
      loadGptResponse := Idle;
      playerState := PlayerState.Stopped;
      appReady := false;
      audioChunks := [];
      supportedMimeType := Webm;
      recorderRef := None;
      refRecording := false;
      recordersCreated := 0;
      pendingStops := 0;
      uploads := [];
      awaiting := 0;
      audioElement := None;
      stopwatch := new SW.StopWatch();
    }

    /**
     * `startRecorder`. Without media devices nothing is attempted; otherwise
     * the chunk buffer is emptied, and a recorder is created only when the
     * microphone is granted and some type is supported. Every failure inside
     * is caught and logged.
     */
    method StartRecorder(hasMediaDevices: bool, microphoneGranted: bool, supported: set<MimeType>)
      requires Valid()
      modifies this
      ensures Valid()
      ensures RecorderSetUp(hasMediaDevices, microphoneGranted, supported)
      ensures recorderState == old(recorderState) && loadGptResponse == old(loadGptResponse)
      ensures playerState == old(playerState) && appReady == old(appReady)
      ensures pendingStops == old(pendingStops) && uploads == old(uploads) && awaiting == old(awaiting)
      ensures audioElement == old(audioElement)
    {
      if hasMediaDevices {
        audioChunks := [];
        if microphoneGranted {
          var choice := SelectMimeType(supported);
          if choice.Some? {
            supportedMimeType := choice.value;
            recorderRef := Some(Recorder(recordersCreated, choice.value));
            recordersCreated := recordersCreated + 1;
            refRecording := true;
          }
        }
      }
    }

    /**
     * `handleStartRecording`: `startRecorder` catches its own failures, so
     * the handler always goes on to report "recording" and start the timer.
     */
    method HandleStartRecording(hasMediaDevices: bool, microphoneGranted: bool, supported: set<MimeType>)
      requires Valid()
      modifies this, stopwatch
      ensures Valid()
      ensures recorderState == Recording
      ensures RecorderSetUp(hasMediaDevices, microphoneGranted, supported)
      ensures stopwatch.timerRef.Some? && stopwatch.timerRef.value !in old(stopwatch.live)
      ensures stopwatch.live == old(stopwatch.live) + {stopwatch.timerRef.value}
      ensures stopwatch.timeInSeconds == old(stopwatch.timeInSeconds)
      ensures loadGptResponse == old(loadGptResponse) && playerState == old(playerState) && appReady == old(appReady)
      ensures pendingStops == old(pendingStops) && uploads == old(uploads) && awaiting == old(awaiting)
      ensures audioElement == old(audioElement)
    {
      StartRecorder(hasMediaDevices, microphoneGranted, supported);
      recorderState := Recording;
      var _ := stopwatch.StartTimer();
    }

    /**
     * `handleStopRecording`: stops the recorder in the ref when it is still
     * recording (its `stop` event follows later), reports "stopped" and
     * clears the timer.
     */
    method HandleStopRecording()
      requires Valid()
      modifies this, stopwatch
      ensures Valid()
      ensures recorderState == RecorderState.Stopped
      ensures recorderRef == old(recorderRef) && !refRecording
      ensures pendingStops == old(pendingStops) + (if old(refRecording) then 1 else 0)
      ensures stopwatch.timeInSeconds == 0 && stopwatch.timerRef == old(stopwatch.timerRef)
      ensures stopwatch.live ==
        if old(stopwatch.timerRef).Some? then old(stopwatch.live) - {old(stopwatch.timerRef).value}
        else old(stopwatch.live)
      ensures audioChunks == old(audioChunks) && supportedMimeType == old(supportedMimeType)
      ensures recordersCreated == old(recordersCreated)
      ensures loadGptResponse == old(loadGptResponse) && playerState == old(playerState) && appReady == old(appReady)
      ensures uploads == old(uploads) && awaiting == old(awaiting) && audioElement == old(audioElement)
    {
      if refRecording {
        refRecording := false;
        pendingStops := pendingStops + 1;
      }
      recorderState := RecorderState.Stopped;
      stopwatch.ClearTimer();
    }

    /** `ondataavailable`: the chunk is pushed at the end of the buffer. */
    method OnDataAvailable(chunk: Chunk)
      requires Valid()
      modifies this
      ensures Valid()
      ensures audioChunks == old(audioChunks) + [chunk]
      ensures recorderState == old(recorderState) && supportedMimeType == old(supportedMimeType)
      ensures recorderRef == old(recorderRef) && refRecording == old(refRecording)
      ensures recordersCreated == old(recordersCreated) && pendingStops == old(pendingStops)
      ensures loadGptResponse == old(loadGptResponse) && playerState == old(playerState) && appReady == old(appReady)
      ensures uploads == old(uploads) && awaiting == old(awaiting) && audioElement == old(audioElement)
    {
      audioChunks := audioChunks + [chunk];
    }

    /**
     * The sending half of `getGptResponseToQuery`: the form with the payload
     * and its type is posted, and one more reply is awaited.
     */
    method PostUpload(audioBlob: Blob, fileType: string)
      requires ValidExceptUploads() && loadGptResponse == Loading
      modifies this
      ensures Valid()
      ensures uploads == old(uploads) + [UploadForm(audioBlob, fileType)] && awaiting == old(awaiting) + 1
      ensures loadGptResponse == old(loadGptResponse) && pendingStops == old(pendingStops)
      ensures recorderRef == old(recorderRef) && refRecording == old(refRecording)
      ensures audioChunks == old(audioChunks) && supportedMimeType == old(supportedMimeType)
      ensures recorderState == old(recorderState) && recordersCreated == old(recordersCreated)
      ensures playerState == old(playerState) && appReady == old(appReady) && audioElement == old(audioElement)
    {
      uploads := uploads + [UploadForm(audioBlob, fileType)];
      awaiting := awaiting + 1;
    }

    /**
     * `onstop`: the payload is every buffered chunk in order, tagged with the
     * selected type; the page shows "loading" and the upload is posted. The
     * ref is cleared only if the recorder it holds is still recording, that
     * is, only if a new recording started before this event arrived.
     */
    method OnRecorderStop()
      requires Valid() && pendingStops > 0
      modifies this
      ensures Valid()
      ensures loadGptResponse == Loading
      ensures uploads == old(uploads) + [UploadForm(MakeBlob(audioChunks, supportedMimeType), supportedMimeType.Name())]
      ensures awaiting == old(awaiting) + 1 && pendingStops == old(pendingStops) - 1
      ensures if old(refRecording) then recorderRef == None && !refRecording
              else recorderRef == old(recorderRef) && !refRecording
      ensures audioChunks == old(audioChunks) && supportedMimeType == old(supportedMimeType)
      ensures recorderState == old(recorderState) && recordersCreated == old(recordersCreated)
      ensures playerState == old(playerState) && appReady == old(appReady) && audioElement == old(audioElement)
    {
      pendingStops := pendingStops - 1;
      var audioBlob := MakeBlob(audioChunks, supportedMimeType);
      loadGptResponse := Loading;
      PostUpload(audioBlob, supportedMimeType.Name());
      if refRecording {
        recorderRef := None;
        refRecording := false;
      }
    }

    /**
     * The reply to one upload arrives. Only an ok response reaches the
     * callback, which marks "success" and plays the reply; a non-ok status or
     * a failed request is caught and logged, and nothing else changes.
     */
    method OnResponse(outcome: FetchOutcome, pausedAfterPlay: bool)
      requires Valid() && awaiting > 0
      modifies this
      ensures Valid()
      ensures awaiting == old(awaiting) - 1
      ensures outcome.Ok? ==>
        loadGptResponse == Success &&
        audioElement == Some(AudioElement(Reply(outcome.audio), pausedAfterPlay,
                                          if pausedAfterPlay then Handler(old(audioElement)) else Some(NoCallback))) &&
        playerState == (if pausedAfterPlay then old(playerState) else Playing)
      ensures !outcome.Ok? ==>
        loadGptResponse == old(loadGptResponse) && playerState == old(playerState) &&
        audioElement == old(audioElement)
      ensures recorderState == old(recorderState) && audioChunks == old(audioChunks)
      ensures recorderRef == old(recorderRef) && refRecording == old(refRecording)
      ensures supportedMimeType == old(supportedMimeType) && recordersCreated == old(recordersCreated)
      ensures pendingStops == old(pendingStops) && uploads == old(uploads) && appReady == old(appReady)
    {
      awaiting := awaiting - 1;
      if outcome.Ok? {
        loadGptResponse := Success;
        PlayAudio(Reply(outcome.audio), NoCallback, pausedAfterPlay);
      }
    }

    /**
     * `playAudio`: the element (created on first use) gets the new source and
     * is played. If it is paused straight away the function returns: the
     * player state and the old `onended` handler stay. Otherwise the player
     * is "playing" and a new handler, bound to `onStop`, is installed.
     */
    method PlayAudio(src: AudioSource, onStop: EndCallback, pausedAfterPlay: bool)
      requires Valid()
      modifies this
      ensures Valid()
      ensures audioElement ==
        Some(AudioElement(src, pausedAfterPlay, if pausedAfterPlay then Handler(old(audioElement)) else Some(onStop)))
      ensures playerState == if pausedAfterPlay then old(playerState) else Playing
      ensures recorderState == old(recorderState) && loadGptResponse == old(loadGptResponse)
      ensures audioChunks == old(audioChunks) && supportedMimeType == old(supportedMimeType)
      ensures recorderRef == old(recorderRef) && refRecording == old(refRecording)
      ensures recordersCreated == old(recordersCreated) && pendingStops == old(pendingStops)
      ensures uploads == old(uploads) && awaiting == old(awaiting) && appReady == old(appReady)
    {
      audioElement := Some(AudioElement(src, pausedAfterPlay, Handler(audioElement)));
      if !pausedAfterPlay {
        playerState := Playing;
        audioElement := Some(AudioElement(src, false, Some(onStop)));
      }
    }

    /** The delayed start of the introduction after the first click: `playAudio("introduction.mp3", setAppReady, true)`. */
    method PlayIntroduction(pausedAfterPlay: bool)
      requires Valid()
      modifies this
      ensures Valid()
      ensures audioElement ==
        Some(AudioElement(Introduction, pausedAfterPlay,
                          if pausedAfterPlay then Handler(old(audioElement)) else Some(SetAppReady(true))))
      ensures playerState == if pausedAfterPlay then old(playerState) else Playing
      ensures recorderState == old(recorderState) && loadGptResponse == old(loadGptResponse)
      ensures audioChunks == old(audioChunks) && supportedMimeType == old(supportedMimeType)
      ensures recorderRef == old(recorderRef) && refRecording == old(refRecording)
      ensures recordersCreated == old(recordersCreated) && pendingStops == old(pendingStops)
      ensures uploads == old(uploads) && awaiting == old(awaiting) && appReady == old(appReady)
    {
      PlayAudio(Introduction, SetAppReady(true), pausedAfterPlay);
    }

    /**
     * The element reaches its end: the installed handler sets the player
     * back to "stopped" and calls the callback it was given.
     */
    method OnAudioEnded()
      requires Valid() && audioElement.Some? && !audioElement.value.paused
      modifies this
      ensures Valid()
      ensures audioElement == Some(old(audioElement).value.(paused := true))
      ensures playerState == PlayerState.Stopped
      ensures appReady == match old(audioElement).value.onEnded
                          case Some(SetAppReady(ready)) => ready
                          case _ => old(appReady)
      ensures recorderState == old(recorderState) && loadGptResponse == old(loadGptResponse)
      ensures audioChunks == old(audioChunks) && supportedMimeType == old(supportedMimeType)
      ensures recorderRef == old(recorderRef) && refRecording == old(refRecording)
      ensures recordersCreated == old(recordersCreated) && pendingStops == old(pendingStops)
      ensures uploads == old(uploads) && awaiting == old(awaiting)
    {
      var element := audioElement.value;
      audioElement := Some(element.(paused := true));
      playerState := PlayerState.Stopped;
      match element.onEnded {
        case Some(SetAppReady(ready)) => appReady := ready;
        case _ =>
      }
    }
  }

  // ------------------------------------------------------------ scenarios

  /**
   * With no supported type the recorder is never created, yet the page
   * reports "recording" and the timer runs.
   */
  method UnsupportedFormatStillRecords() returns (state: RecorderState, recorder: Option<Recorder>, timerRunning: bool)
    ensures state == Recording && recorder == None && timerRunning
  {
    var page := new VoiceRecorder();
    page.HandleStartRecording(true, true, {});
    state, recorder := page.recorderState, page.recorderRef;
    timerRunning := page.stopwatch.timerRef.Some? && page.stopwatch.timerRef.value in page.stopwatch.live;
  }

  /**
   * One recording turn on a browser without webm: ogg is chosen, and the
   * upload carries both chunks in arrival order under that type.
   */
  method OneTurn(first: Chunk, second: Chunk) returns (sent: seq<FormEntry>, view: Control)
    ensures sent == UploadForm(Blob(first + second, "audio/ogg"), "audio/ogg")
    ensures view == Spinner
  {
    var page := new VoiceRecorder();
    page.HandleStartRecording(true, true, {Ogg, Mp4});
    page.OnDataAvailable(first);
    page.OnDataAvailable(second);
    page.HandleStopRecording();
    page.OnRecorderStop();
    assert SelectMimeType({Ogg, Mp4}) == Some(Ogg);
    assert page.audioChunks == [first, second];
    assert Concat([first, second]) == first + second by {
      assert [first, second][1..] == [second];
      assert [second][1..] == [];
      assert Concat([second]) == second + Concat([]);
      assert second + [] == second;
    }
    sent := page.uploads[|page.uploads| - 1];
    view := page.View();
  }

  /** A failed reply leaves "loading" in place: the spinner stays and no button returns. */
  method FailedReplyKeepsSpinner(failure: FetchOutcome) returns (load: LoadState, view: Control)
    requires !failure.Ok?
    ensures load == Loading && view == Spinner
  {
    var page := new VoiceRecorder();
    page.HandleStartRecording(true, true, {Webm});
    page.HandleStopRecording();
    page.OnRecorderStop();
    page.OnResponse(failure, false);
    load, view := page.loadGptResponse, page.View();
  }

  /** The buttons stay disabled until the introduction has played to its end. */
  method IntroductionEnablesButtons() returns (before: Control, during: Control, after: Control)
    ensures before == StartButton(false) && during == StartButton(false) && after == StartButton(true)
  {
    var page := new VoiceRecorder();
    before := page.View();
    page.PlayIntroduction(false);
    during := page.View();
    page.OnAudioEnded();
    after := page.View();
  }

  /**
   * A reply that plays to its end sets the player back to "stopped" and,
   * having no callback, leaves the buttons as the introduction left them.
   */
  method ReplyPlaysToEnd(chunk: Chunk, reply: Blob) returns (player: PlayerState, view: Control)
    ensures player == PlayerState.Stopped && view == StartButton(true)
  {
    var page := new VoiceRecorder();
    page.PlayIntroduction(false);
    page.OnAudioEnded();
    page.HandleStartRecording(true, true, {Webm});
    page.OnDataAvailable(chunk);
    page.HandleStopRecording();
    page.OnRecorderStop();
    page.OnResponse(Ok(reply), false);
    page.OnAudioEnded();
    player, view := page.playerState, page.View();
  }
}
