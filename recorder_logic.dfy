/**
 * The decisions of components/voicerecorder.tsx that depend only on their
 * inputs: which audio container to record in, how the recorded chunks become
 * the upload payload, what the upload form carries, and which control the
 * page shows.
 */
module RecorderLogic {
  import opened Wrappers
  import TimeFormat

  // ------------------------------------------------------------ MIME types

  datatype MimeType = Webm | Ogg | Mp4 {
    function Name(): string {
      match this
      case Webm => "audio/webm"
      case Ogg => "audio/ogg"
      case Mp4 => "audio/mp4"
    }
  }

  /** The order in which the recorder asks the browser about each type. */
  const Preference: seq<MimeType> := [Webm, Ogg, Mp4]

  function Rank(m: MimeType): (k: nat)
    ensures k < |Preference| && Preference[k] == m
  {
    match m
    case Webm => 0
    case Ogg => 1
    case Mp4 => 2
  }

  /**
   * The if/else chain of `startRecorder`: the first type of `Preference` that
   * `MediaRecorder.isTypeSupported` accepts, or `None` where the source throws
   * "unsupported audio format".
   */
  function SelectMimeType(supported: set<MimeType>): (r: Option<MimeType>)
    ensures r.None? <==> supported == {}
    ensures r.Some? ==> r.value in supported
    ensures r.Some? ==> forall m :: m in supported ==> Rank(r.value) <= Rank(m)
  {
    if Webm in supported then Some(Webm)
    else if Ogg in supported then Some(Ogg)
    else if Mp4 in supported then Some(Mp4)
    else
      assert forall m: MimeType :: m !in supported by {
        forall m: MimeType ensures m !in supported {
          assert m == Webm || m == Ogg || m == Mp4;
        }
      }
      None
  }

  // -------------------------------------------------------------- payload

  /** One `BlobEvent.data` delivered by the recorder. */
  type Chunk = seq<bv8>

  /** The bytes of `new Blob(chunks)`: the chunks one after another. */
  function Concat(chunks: seq<Chunk>): seq<bv8> {
    if chunks == [] then [] else chunks[0] + Concat(chunks[1..])
  }

  datatype Blob = Blob(bytes: seq<bv8>, mimeType: string)

  /** `new Blob(chunks, { type })`. */
  function MakeBlob(chunks: seq<Chunk>, mimeType: MimeType): Blob {
    Blob(Concat(chunks), mimeType.Name())
  }

  lemma {:induction false} ConcatAppend(a: seq<Chunk>, b: seq<Chunk>)
    ensures Concat(a + b) == Concat(a) + Concat(b)
    decreases |a|
  {
    if a == [] {
      assert a + b == b;
    } else {
      assert (a + b)[0] == a[0];
      assert (a + b)[1..] == a[1..] + b;
      ConcatAppend(a[1..], b);
    }
  }

  /**
   * The payload keeps arrival order: chunk `i` sits right after the bytes of
   * every chunk that arrived before it and right before those that came later.
   */
  lemma ChunkInPlace(chunks: seq<Chunk>, i: nat)
    requires i < |chunks|
    ensures Concat(chunks) == Concat(chunks[..i]) + chunks[i] + Concat(chunks[i + 1..])
  {
    var before, after := chunks[..i], chunks[i..];
    assert chunks == before + after;
    ConcatAppend(before, after);
    assert after[0] == chunks[i] && after[1..] == chunks[i + 1..];
  }

  /** A data event appends its chunk at the end of the payload. */
  lemma PayloadGrows(chunks: seq<Chunk>, c: Chunk)
    ensures forall m: MimeType :: MakeBlob(chunks + [c], m).bytes == MakeBlob(chunks, m).bytes + c
  {
    ConcatAppend(chunks, [c]);
    assert Concat([c]) == c + Concat([]);
  }

  // --------------------------------------------------------------- upload

  datatype FormValue = File(blob: Blob, filename: string) | Text(text: string)
  datatype FormEntry = FormEntry(name: string, value: FormValue)

  /** The `FormData` that `getGptResponseToQuery` posts; the audio goes under the field name `audio_blob`. */
  function UploadForm(audio: Blob, fileType: string): seq<FormEntry> {
    [FormEntry("audio_blob", File(audio, "file")), FormEntry("type", Text(fileType))]
  }

  /** `FormData.get`: the value of the first entry with that name. */
  function Get(form: seq<FormEntry>, name: string): Option<FormValue> {
    if form == [] then None
    else if form[0].name == name then Some(form[0].value)
    else Get(form[1..], name)
  }

  /** The upload carries the payload under `audio_blob`, its type under `type`, and nothing else. */
  lemma UploadFormFields(audio: Blob, fileType: string)
    ensures Get(UploadForm(audio, fileType), "audio_blob") == Some(File(audio, "file"))
    ensures Get(UploadForm(audio, fileType), "type") == Some(Text(fileType))
    ensures forall n :: n != "audio_blob" && n != "type" ==> Get(UploadForm(audio, fileType), n) == None
  {
    var form := UploadForm(audio, fileType);
    assert form[1..][1..] == [];
    forall n | n != "audio_blob" && n != "type"
      ensures Get(form, n) == None
    {
      calc {
        Get(form, n);
        Get(form[1..], n);
        Get(form[1..][1..], n);
      }
    }
  }

  // ----------------------------------------------------------------- view

  datatype RecorderState = Recording | Stopped
  datatype LoadState = Idle | Success | Loading | Error

  /** The control under the bubble; the stop button's icon is the elapsed time. */
  datatype Control =
    | Spinner
    | StartButton(enabled: bool)
    | StopButton(enabled: bool, elapsed: string)

  /**
   * The nested conditional of the page: the spinner while a reply is
   * loading, whatever the recorder does; otherwise the start button when
   * stopped and the stop button, labelled with the elapsed time, when
   * recording. A button is enabled exactly when the app is ready.
   */
  function SelectView(load: LoadState, recorder: RecorderState, appReady: bool, seconds: nat): (v: Control)
    ensures v.Spinner? <==> load == Loading
    ensures v.StartButton? <==> load != Loading && recorder == Stopped
    ensures v.StopButton? <==> load != Loading && recorder == Recording
    ensures !v.Spinner? ==> v.enabled == appReady
    ensures v.StopButton? ==> TimeFormat.ParseTime(v.elapsed) == Some(seconds)
  {
    if load == Loading then Spinner
    else if recorder.Stopped? then StartButton(appReady)
    else
      TimeFormat.RoundTrip(seconds);
      StopButton(appReady, TimeFormat.FormatTime(seconds))
  }
}
