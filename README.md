# Anwana voice recorder — a Dafny model

Anwana is a push-to-talk voice assistant page: the user presses "Start
recording", speaks, presses "Stop recording"; the recorded audio is posted to
`/api/gpt`, a spinner shows while the reply is on its way, and the reply is
played back. The buttons stay disabled until a short introduction clip has
played to its end, and the stop button shows the elapsed recording time as
`MM:SS`.

This project models the client-side logic behind that page:

- `time_format.dfy` (module `TimeFormat`): `formatTime`, the `MM:SS` display,
  with a reader for it and the round trip between the two.
- `throttle.dfy` (module `Throttling`): `throttle`, a gate that is idle or
  armed until its timeout fires. The timeout is the event `Expire`. A ghost log
  of calls, drops and expiries states properties of whole runs.
- `stopwatch.dfy` (module `StopWatch`): the `useStopWatch` hook as a class.
  It has the count, the stored interval handle and the host's table of live
  intervals; each interval firing is the event `Tick`.
- `recorder_logic.dfy` (module `RecorderLogic`): the pure decisions of the
  page. These are the preference-ordered choice of audio container, the upload
  payload built from the recorded chunks, the upload form, and the control
  the page shows.
- `voice_recorder.dfy` (module `VoiceRecorderModel`): the `VoiceRecorder`
  component as a class. It holds the status variables (`recorderState`,
  `loadGptResponse`, `playerState`, `appReady`), the refs (chunk buffer,
  selected type, recorder, audio element) and the stopwatch. Browser callbacks
  are methods: recorder data and stop events, the reply to an upload, the end
  of playback, the delayed start of the introduction. Browser capability
  answers are parameters: media devices present, microphone granted, types
  supported, element paused right after `play()`.
  The class invariant `Valid()` holds after every handler. It says, among
  other things, that `loadGptResponse` is never `"error"`.

## Model

| member | source | states |
|---|---|---|
| TimeFormat.Decimal | lib/utils.ts:10 | `String(n)` of a natural number is a non-empty run of decimal digits |
| TimeFormat.DecimalValue | lib/utils.ts:10-11 | the digits `String(n)` produces denote `n` again |
| TimeFormat.DecimalLength | lib/utils.ts:10-11 | `String(n)` has one digit below 10, two below 100, and at least three from 100 on |
| TimeFormat.PadStart | lib/utils.ts:10-11 | `padStart` gives a string as long as the longer of `s` and the width, never truncating |
| TimeFormat.PadSuffix | lib/utils.ts:10-11 | padding only prepends: the padded string ends with `s` unchanged, whatever the fill |
| TimeFormat.ZeroPadValue | lib/utils.ts:10-11 | zero padding keeps a digit string's value |
| TimeFormat.TwoDigitsPart | lib/utils.ts:10-11 | `String(n).padStart(2, "0")` is digits worth `n`, exactly two below 100, and the plain decimal form, three or more long, from 100 on |
| TimeFormat.MinutesPart | lib/utils.ts:10 | the minutes part is digits worth floor(t/60), at least two long; exactly two below t = 6000, three or more (never truncated) from there |
| TimeFormat.SecondsPart | lib/utils.ts:11 | the seconds part is exactly two digits, worth t % 60, below 60 |
| TimeFormat.Minutes | lib/utils.ts:10 | `String(Math.floor(t / 60)).padStart(2, "0")`; what it holds is stated by `MinutesPart` |
| TimeFormat.Seconds | lib/utils.ts:11 | `String(t % 60).padStart(2, "0")`; what it holds is stated by `SecondsPart` |
| TimeFormat.FormatTime | lib/utils.ts:9-13 | the display has at least five characters, a `:` third from the end, digits worth floor(t/60) before it and two digits worth t % 60 (below 60) after it |
| TimeFormat.ShortForm | lib/utils.ts:10-12 | for t < 6000 the display has length 5, digits around a `:` at index 2 |
| TimeFormat.FormatZero | lib/utils.ts:9-13 | the display of 0 is `00:00` |
| TimeFormat.RoundTrip | lib/utils.ts:10-12 | reading the display back as minutes*60 + seconds gives the original count |
| TimeFormat.Injective | lib/utils.ts:9-13 | different counts give different displays |
| Throttling.Throttle.constructor | lib/utils.ts:15-16 | a new wrapper starts idle with an empty history |
| Throttling.Throttle.Call | lib/utils.ts:18-24 | a call while idle invokes the wrapped function once with the same arguments and arms the timer only if that function returns; if it throws, the wrapper stays idle; a call while armed is dropped and changes nothing but the history |
| Throttling.ThrowKeepsIdle | lib/utils.ts:19-21 | after a throwing call, the next call reaches the wrapped function again with no expiry in between |
| Throttling.Throttle.Expire | lib/utils.ts:21-23 | the timeout resets the flag to idle |
| Throttling.InvocationsBound | lib/utils.ts:19-23 | over any run, calls that returned normally (armed the timer) = expiries + (1 if a timeout is pending), hence at most expiries + 1 of them; calls that throw are not bounded (see `ThrowKeepsIdle`) |
| Throttling.ExpiryBetweenInvocations | lib/utils.ts:19-23 | between any two calls that returned normally (armed the timer) the timeout has fired at least once; calls that throw need no expiry in between (see `ThrowKeepsIdle`) |
| StopWatch.StopWatch.constructor | components/hooks/usestopwatch.tsx:4-5 | the count starts at 0, with no interval stored and none running |
| StopWatch.StopWatch.StartTimer | components/hooks/usestopwatch.tsx:7-11 | a new interval is scheduled and its handle overwrites `timerRef`; earlier intervals keep running; the count is unchanged |
| StopWatch.StopWatch.Tick | components/hooks/usestopwatch.tsx:8-10 | a tick of a live interval adds exactly 1; a tick of a cancelled one changes nothing; the count never decreases |
| StopWatch.StopWatch.ClearTimer | components/hooks/usestopwatch.tsx:13-16 | cancels only the interval stored in `timerRef`, keeps `timerRef`, and sets the count to 0 |
| StopWatch.OverwrittenIntervalKeepsTicking | components/hooks/usestopwatch.tsx:7-15 | after two starts and a clear, the first interval still ticks and moves the count to 1 |
| StopWatch.ClearedIntervalIsSilent | components/hooks/usestopwatch.tsx:13-15 | after one start and a clear, any number of later ticks leave the count at 0 |
| RecorderLogic.SelectMimeType | components/voicerecorder.tsx:42-50 | the chosen type is supported and precedes every other supported type in the order webm, ogg, mp4; there is no choice exactly when none is supported |
| RecorderLogic.ConcatAppend | components/voicerecorder.tsx:57-62 | the payload of two runs of chunks is the payload of the first followed by that of the second |
| RecorderLogic.ChunkInPlace | components/voicerecorder.tsx:62 | each chunk appears in the payload after all earlier chunks and before all later ones |
| RecorderLogic.Concat | components/voicerecorder.tsx:62 | the bytes of `new Blob(chunks)`: the chunks one after another; stated by `ConcatAppend` and `ChunkInPlace` |
| RecorderLogic.MakeBlob | components/voicerecorder.tsx:62 | `new Blob(chunks, { type })`: those bytes, tagged with the selected type's name |
| RecorderLogic.UploadForm | components/voicerecorder.tsx:102-104 | the two entries of the posted form; what they hold is stated by `UploadFormFields` |
| RecorderLogic.PayloadGrows | components/voicerecorder.tsx:57-62 | one more data event appends its chunk at the end of the payload, whatever the type |
| RecorderLogic.UploadFormFields | components/voicerecorder.tsx:102-104 | the form carries the payload as file "file" under `audio_blob`, the selected type under `type`, and no other field |
| RecorderLogic.SelectView | components/voicerecorder.tsx:260-303 | spinner exactly while loading, whatever the recorder state; otherwise start button when stopped, stop button when recording; a button is enabled exactly when the app is ready; the stop button's label reads back as the elapsed seconds |
| VoiceRecorderModel.VoiceRecorder.View | components/voicerecorder.tsx:260-282 | the render conditional applied to the page's load state, recorder state, readiness and elapsed seconds; what it shows is stated by `SelectView` |
| VoiceRecorderModel.VoiceRecorder.constructor | components/voicerecorder.tsx:161-175 | initial state: stopped, idle, player stopped, not ready, empty buffer, webm, no recorder |
| VoiceRecorderModel.VoiceRecorder.StartRecorder | components/voicerecorder.tsx:28-56 | with media devices the buffer is emptied; a recorder in the preferred supported type is created only when the microphone is granted and a type is supported, else type and recorder stay; the recorder and timer state are untouched |
| VoiceRecorderModel.VoiceRecorder.HandleStartRecording | components/voicerecorder.tsx:195-206 | the recorder is set up as `startRecorder` does; in every case the state then becomes recording and a new timer interval starts |
| VoiceRecorderModel.VoiceRecorder.HandleStopRecording | components/voicerecorder.tsx:213-222 | a recording recorder is stopped and owes one stop event; the state becomes stopped; the timer's stored interval is cancelled and the count reset |
| VoiceRecorderModel.VoiceRecorder.OnDataAvailable | components/voicerecorder.tsx:57-59 | the chunk is appended at the end of the buffer; nothing else changes |
| VoiceRecorderModel.VoiceRecorder.OnRecorderStop | components/voicerecorder.tsx:61-80 | the load state becomes loading and one upload is posted, carrying all buffered chunks in order, tagged and typed with the selected type; the recorder ref is cleared only if its recorder is still recording |
| VoiceRecorderModel.VoiceRecorder.PostUpload | components/voicerecorder.tsx:100-110 | the form with the payload and its type is appended to the posted uploads and one more reply is awaited; nothing else changes |
| VoiceRecorderModel.VoiceRecorder.OnResponse | components/voicerecorder.tsx:100-120 | an ok reply sets success and plays the reply audio as `playAudio` does, with no end callback; a non-ok status or failed request changes nothing but the count of outstanding uploads |
| VoiceRecorderModel.VoiceRecorder.PlayAudio | components/voicerecorder.tsx:126-155 | the element plays the new source; if paused right after `play()`, the player state and old end handler stay; otherwise the player is playing and a handler bound to the given callback is installed |
| VoiceRecorderModel.VoiceRecorder.PlayIntroduction | components/voicerecorder.tsx:177-193 | the introduction clip is played as `playAudio` does, with `setAppReady(true)` as its end callback; if paused at once the old handler and player state stay; nothing else changes |
| VoiceRecorderModel.VoiceRecorder.OnAudioEnded | components/voicerecorder.tsx:141-144 | at the end of playback the element is paused, the player returns to stopped and the installed callback runs once; nothing else changes |
| VoiceRecorderModel.UnsupportedFormatStillRecords | components/voicerecorder.tsx:42-50 | with no supported type no recorder exists, yet the state is recording and the timer runs |
| VoiceRecorderModel.OneTurn | components/voicerecorder.tsx:57-80 | start on a browser without webm, two data events, stop: the upload is the two chunks in order as ogg, and the spinner shows |
| VoiceRecorderModel.FailedReplyKeepsSpinner | components/voicerecorder.tsx:112-119 | after a failed reply the load state is still loading and the spinner stays |
| VoiceRecorderModel.IntroductionEnablesButtons | components/voicerecorder.tsx:302-303 | the start button is disabled before and during the introduction and enabled once it has ended |
| VoiceRecorderModel.ReplyPlaysToEnd | components/voicerecorder.tsx:65-68 | a reply played to its end sets the player back to stopped and, having no callback, leaves the start button enabled |

## Left out

- TimeFormat.FormatTime: only natural counts are modelled, as Dafny's unbounded `nat`; the stopwatch never passes anything else. JavaScript numbers are doubles: `RoundTrip` and `Injective` hold of the source only for exact integers below 2^53, which the stopwatch never leaves (from 1e21 on `String` even switches to exponent form). Negative and fractional numbers are out too: `%` truncates and `Math.floor` floors for them, and `String` of a fraction has a decimal point.
- `cn` in lib/utils.ts: a wrapper over `clsx` and `tailwind-merge`, which are not part of this model.
- Throttling.Throttle.Call: the wrapped function is assumed not to call the same wrapper again while it runs. Such a re-entrant call would find the flag still `null` and reach the function a second time before any timer is armed.
- Throttling.Throttle: the `delay` value and real time are not modelled; the timeout is the `Expire` event. The wrapped function is not called; `Call` reports whether it would be, and with which arguments.
- StopWatch.StopWatch: the one-second period is not modelled; each firing of an interval is a `Tick` event. React's batching of state updates is not modelled; each update takes effect at once.
- VoiceRecorderModel.VoiceRecorder.HandleStartRecording: `getUserMedia` is reduced to granted or refused. The media stream itself is not modelled, nor its tracks stopped in `stopRecorder`. The `await`s are treated as atomic: no other event is interleaved with a start.
- VoiceRecorderModel.VoiceRecorder.HandleStopRecording: stopping an inactive recorder is a no-op, as the current MediaStream Recording standard says. An older browser that throws there would skip the rest of the handler; that case is not modelled.
- VoiceRecorderModel.VoiceRecorder.OnResponse: replies are not matched to the uploads they answer, as the component does not match them either. The reply body is an opaque blob; object URLs are not modelled.
- VoiceRecorderModel.VoiceRecorder.PlayAudio: the cleanup function it returns is never used by its callers and is not modelled. A rejected `play()` promise and a throwing `new Audio()` are not modelled.
- The global `window.onerror` hook, `logRemoteError` and console logging: error reporting with no effect on the page state.
- The click listener and the 500 ms timeout that start the introduction are folded into `PlayIntroduction`.
- The "ping" animation while the player is playing, all styling, icons and the spinner's markup.
- The server routes under app/api, the audio visualiser and its scene objects, and the build configuration are not part of this model.
