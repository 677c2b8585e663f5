/**
 * The application component (App.tsx): the six-state pipeline status, the
 * transcript, summary and error it shows, the handlers wired to the record
 * button, the transcribe-and-summarize pipeline, and the derived status
 * message and flags. The two remote stages are inputs: `transcribe` maps the
 * base64 payload and MIME type to an outcome, `summarize` maps a transcript to
 * an outcome and is only defined on non-empty text (the guard at the head of
 * the remote summarizer).
 */
module App {
  import opened Wrappers
  import opened AudioUtils
  import Recorder
  import RecorderControl

  datatype AppStatus = Idle | Recording | Recorded | Processing | Summarized | Error

  const TranscriptionFailedMessage := "Transcription failed, cannot summarize."
  const UnknownErrorMessage := "An unknown error occurred."

  /** `getStatusMessage`: a non-empty line for each of the six statuses. */
  function StatusMessage(s: AppStatus): (m: string)
    ensures m != ""
  {
    match s
    case Idle => "Click record to start"
    case Recording => "Recording audio..."
    case Recorded => "Audio recorded. Ready to summarize."
    case Processing => "Processing... Transcribing and summarizing."
    case Summarized => "Here is your summary!"
    case Error => "An error occurred."
  }

  /** Different statuses show different messages. */
  lemma StatusMessagesDistinct(a: AppStatus, b: AppStatus)
    ensures StatusMessage(a) == StatusMessage(b) ==> a == b
  {
  }

  /** The transcript card's `isLoading`. */
  predicate TranscriptLoading(status: AppStatus, transcript: string) {
    status == Processing && transcript == ""
  }

  /** The summary card's `isLoading`. */
  predicate SummaryLoading(status: AppStatus, transcript: string, summary: string) {
    status == Processing && transcript != "" && summary == ""
  }

  /** The transcribe button's `disabled`. */
  predicate ActionDisabled(status: AppStatus, hasBlob: bool) {
    status == Processing || !hasBlob
  }

  /** The transcribe button's caption. */
  function ActionCaption(status: AppStatus): (c: string)
    ensures c == "Processing..." <==> status == Processing
  {
    if status == Processing then "Processing..." else "Transcribe & Summarize"
  }

  /**
   * At most one card shows its skeleton at a time, only while processing, and
   * then the transcribe button is disabled.
   */
  lemma LoadingFlagsExclusive(status: AppStatus, transcript: string, summary: string, hasBlob: bool)
    ensures !(TranscriptLoading(status, transcript) && SummaryLoading(status, transcript, summary))
    ensures TranscriptLoading(status, transcript) || SummaryLoading(status, transcript, summary) ==>
      status == Processing && ActionDisabled(status, hasBlob)
  {
  }

  /** `err.message || 'An unknown error occurred.'`: the message shown, never empty. */
  function ErrorText(message: string): (t: string)
    ensures t != ""
    ensures message != "" ==> t == message
    ensures message == "" ==> t == UnknownErrorMessage
  {
    if message == "" then UnknownErrorMessage else message
  }

  /** The remote transcriber: base64 payload and MIME type to an outcome. */
  type Transcriber = (Option<string>, string) -> Outcome

  /** The remote summarizer: a partial function, defined where its caller may use it. */
  type Summarizer = string --> Outcome

  /** The summarizer can be asked about any non-empty text. */
  ghost predicate AcceptsNonEmpty(summarize: Summarizer) {
    forall t: string :: t != "" ==> summarize.requires(t)
  }

  /** The first stage: read the blob as base64, then transcribe it; a rejected read is a failure of this stage. */
  function Transcription(reader: ReaderEvent, mime: string, transcribe: Transcriber): (o: Outcome)
    ensures BlobToBase64(reader).Rejected? ==> o == Fail(BlobToBase64(reader).message)
    ensures BlobToBase64(reader).Resolved? ==> o == transcribe(BlobToBase64(reader).payload, mime)
  {
    match BlobToBase64(reader)
    case Rejected(m) => Fail(m)
    case Resolved(p) => transcribe(p, mime)
  }

  /** The fields App renders from. */
  datatype Snapshot = Snapshot(status: AppStatus, transcript: string, summary: string, error: Option<string>)

  /**
   * Where `handleTranscribeAndSummarize` ends for a given blob: `summarized`
   * exactly when both stages succeed (with a non-empty transcript in between),
   * otherwise `error` with a non-empty message and no summary. A transcript
   * that arrived is kept even when summarizing fails; an empty one ends in
   * the fixed "cannot summarize" error without asking the summarizer.
   */
  function PipelineEnd(reader: ReaderEvent, mime: string, transcribe: Transcriber, summarize: Summarizer): (o: Snapshot)
    requires AcceptsNonEmpty(summarize)
    ensures o.status == Summarized || o.status == Error
    ensures o.status == Error <==> o.error.Some?
    ensures o.error.Some? ==> o.error.value != "" && o.summary == ""
    ensures var t := Transcription(reader, mime, transcribe);
      (o.status == Summarized <==> t.Ok? && t.text != "" && summarize(t.text).Ok?) &&
      (o.status == Summarized ==> o.transcript == t.text && o.summary == summarize(t.text).text) &&
      (t.Fail? ==> o.transcript == "" && o.error == Some(ErrorText(t.message))) &&
      (t.Ok? ==> o.transcript == t.text) &&
      (t.Ok? && t.text == "" ==> o.error == Some(TranscriptionFailedMessage)) &&
      (t.Ok? && t.text != "" && summarize(t.text).Fail? ==> o.error == Some(ErrorText(summarize(t.text).message)))
  {
    match Transcription(reader, mime, transcribe)
    case Fail(m) => Snapshot(Error, "", "", Some(ErrorText(m)))
    case Ok(t) =>
      if t == "" then Snapshot(Error, "", "", Some(TranscriptionFailedMessage))
      else
        match summarize(t)
        case Ok(s) => Snapshot(Summarized, t, s, None)
        case Fail(m) => Snapshot(Error, t, "", Some(ErrorText(m)))
  }

  /**
   * A reader that fails ends the pipeline before the transcriber: an `onerror`
   * event has no message, so the fallback is shown; a non-string result shows
   * the fixed rejection. No transcript or summary is shown.
   */
  lemma ReadFailuresShown(mime: string, transcribe: Transcriber, summarize: Summarizer)
    requires AcceptsNonEmpty(summarize)
    ensures PipelineEnd(ReadError, mime, transcribe, summarize) ==
      Snapshot(Error, "", "", Some(UnknownErrorMessage))
    ensures PipelineEnd(LoadEnd(OtherResult), mime, transcribe, summarize) ==
      Snapshot(Error, "", "", Some(NotAStringMessage))
  {
  }

  class App {
    /** The recorder hook's state, owned by the component. */
    const recorder: Recorder.AudioRecorder
    var status: AppStatus
    var transcript: string
    var summary: string
    var error: Option<string>

    ghost predicate Valid()
      reads this, recorder
    {
      recorder.Valid() &&
      (error.Some? ==> error.value != "") &&
      (status == Error ==> error.Some?) &&
      (status == Processing ==> error.None?) &&
      (status == Summarized ==> error.None? && transcript != "")
    }

    function Shown(): Snapshot
      reads this
    {
      Snapshot(status, transcript, summary, error)
    }

    /** The initial render: idle, nothing shown, a fresh recorder. */
    constructor ()
      ensures Valid() && fresh(recorder)
      ensures status == Idle && transcript == "" && summary == "" && error.None?
      ensures recorder.status == Recorder.Idle && recorder.blob.None? && recorder.permissionError.None?
      ensures recorder.chunks == [] && recorder.url.None? && !recorder.hasMediaRecorder
    {
      recorder := new Recorder.AudioRecorder();
      status := Idle;
      transcript := "";
      summary := "";
      error := None;
    }

    /** `resetState`: resets the recorder, clears transcript, summary and error, back to `idle`. */
    method ResetState()
      requires Valid()
      modifies this, recorder
      ensures Valid()
      ensures status == Idle && transcript == "" && summary == "" && error.None?
      ensures recorder.status == Recorder.Idle && recorder.blob.None? && recorder.url.None?
      ensures recorder.chunks == [] && !recorder.hasMediaRecorder
      ensures recorder.permissionError == old(recorder.permissionError)
    {
      recorder.ResetRecording();
      transcript := "";
      summary := "";
      error := None;
      status := Idle;
    }

    /**
     * `handleStartRecording`: reset, start, and show `recording` whatever the
     * microphone does. The start callback is the one created before the reset,
     * so its guard sees the recorder's status from before the reset: from
     * `recording` or `denied` the recorder stays reset to `idle`.
     */
    method HandleStartRecording(access: Recorder.MicAccess)
      requires Valid()
      modifies this, recorder
      ensures Valid()
      ensures status == Recording && transcript == "" && summary == "" && error.None?
      ensures recorder.blob.None? && recorder.url.None? && recorder.chunks == []
      ensures old(recorder.status) in {Recorder.Idle, Recorder.Stopped} && access == Recorder.Granted ==>
        recorder.status == Recorder.Recording && recorder.hasMediaRecorder && recorder.permissionError.None?
      ensures old(recorder.status) in {Recorder.Idle, Recorder.Stopped} && access == Recorder.Refused ==>
        recorder.status == Recorder.Denied && !recorder.hasMediaRecorder &&
        recorder.permissionError == Some(Recorder.PermissionMessage)
      ensures old(recorder.status) in {Recorder.Recording, Recorder.Denied} ==>
        recorder.status == Recorder.Idle && !recorder.hasMediaRecorder && recorder.permissionError.None?
    {
      var seen := recorder.status;
      ResetState();
      recorder.StartRecording(seen, access);
      status := Recording;
    }

    /** `handleStopRecording`: stop the recorder (if it is recording) and show `recorded` in any case. */
    method HandleStopRecording(url: string)
      requires Valid()
      modifies this, recorder
      ensures Valid()
      ensures status == Recorded
      ensures transcript == old(transcript) && summary == old(summary) && error == old(error)
      ensures old(recorder.hasMediaRecorder) && old(recorder.status) == Recorder.Recording ==>
        recorder.status == Recorder.Stopped && recorder.blob == Some(Recorder.MakeBlob(recorder.chunks)) &&
        recorder.url == Some(url)
      ensures !(old(recorder.hasMediaRecorder) && old(recorder.status) == Recorder.Recording) ==>
        recorder.status == old(recorder.status) && recorder.blob == old(recorder.blob) && recorder.url == old(recorder.url)
      ensures recorder.chunks == old(recorder.chunks) && recorder.permissionError == old(recorder.permissionError)
      ensures recorder.hasMediaRecorder == old(recorder.hasMediaRecorder)
    {
      var seen := recorder.status;
      recorder.StopRecording(seen, url);
      status := Recorded;
    }

    /**
     * The record button wired to the two handlers: a stop while the recorder
     * records, a start otherwise. A click after a refused microphone does not
     * ask again: it leaves the recorder reset to `idle` while the app says it
     * is recording.
     */
    method PressRecordButton(access: Recorder.MicAccess, url: string)
      requires Valid()
      modifies this, recorder
      ensures Valid()
      // a stop: the recorder (which holds a MediaRecorder while recording) stops; the results stay
      ensures old(recorder.status) == Recorder.Recording ==>
        status == Recorded &&
        transcript == old(transcript) && summary == old(summary) && error == old(error) &&
        recorder.status == Recorder.Stopped && recorder.blob == Some(Recorder.MakeBlob(recorder.chunks)) &&
        recorder.url == Some(url) && recorder.chunks == old(recorder.chunks) &&
        recorder.hasMediaRecorder && recorder.permissionError == old(recorder.permissionError)
      // a start: everything cleared, the recorder reset and then started or refused
      ensures old(recorder.status) != Recorder.Recording ==>
        status == Recording && transcript == "" && summary == "" && error.None? &&
        recorder.blob.None? && recorder.url.None? && recorder.chunks == []
      ensures old(recorder.status) in {Recorder.Idle, Recorder.Stopped} && access == Recorder.Granted ==>
        recorder.status == Recorder.Recording && recorder.hasMediaRecorder && recorder.permissionError.None?
      ensures old(recorder.status) in {Recorder.Idle, Recorder.Stopped} && access == Recorder.Refused ==>
        recorder.status == Recorder.Denied && !recorder.hasMediaRecorder &&
        recorder.permissionError == Some(Recorder.PermissionMessage)
      ensures old(recorder.status) == Recorder.Denied ==>
        recorder.status == Recorder.Idle && !recorder.hasMediaRecorder && recorder.permissionError.None?
    {
      match RecorderControl.ClickAction(recorder.status)
      case Start => HandleStartRecording(access);
      case Stop => HandleStopRecording(url);
    }

    /** The synchronous head of the pipeline: nothing without a blob; otherwise `processing` with everything cleared. */
    method BeginProcessing() returns (started: bool)
      requires Valid()
      modifies this
      ensures Valid()
      ensures started <==> recorder.blob.Some?
      ensures !started ==> Shown() == old(Shown())
      ensures started ==> status == Processing && transcript == "" && summary == "" && error.None?
      ensures started ==> TranscriptLoading(status, transcript) && !SummaryLoading(status, transcript, summary)
    {
      if recorder.blob.None? {
        return false;
      }
      status := Processing;
      error := None;
      transcript := "";
      summary := "";
      return true;
    }

    /** The transcription has arrived and is shown; a non-empty one moves the skeleton to the summary card. */
    method ReceiveTranscript(t: string)
      requires Valid() && status == Processing && summary == ""
      modifies this`transcript
      ensures Valid()
      ensures transcript == t
      ensures t != "" ==> SummaryLoading(status, transcript, summary) && !TranscriptLoading(status, transcript)
    {
      transcript := t;
    }

    /** The summary has arrived: shown, and the pipeline ends `summarized`. */
    method ReceiveSummary(s: string)
      requires Valid() && status == Processing && transcript != ""
      modifies this`summary, this`status
      ensures Valid()
      ensures summary == s && status == Summarized
      ensures !TranscriptLoading(status, transcript) && !SummaryLoading(status, transcript, summary)
    {
      summary := s;
      status := Summarized;
    }

    /** The `catch` block: the error's message (or the fallback) is shown and the pipeline ends in `error`. */
    method CatchFailure(message: string)
      requires Valid()
      modifies this`error, this`status
      ensures Valid()
      ensures error == Some(ErrorText(message)) && status == Error
    {
      error := Some(ErrorText(message));
      status := Error;
    }

    /**
     * `handleTranscribeAndSummarize`: a no-op without a blob; otherwise it
     * ends exactly where PipelineEnd says for the blob's MIME type. The
     * summarizer is only ever asked about a non-empty transcript.
     */
    method HandleTranscribeAndSummarize(reader: ReaderEvent, transcribe: Transcriber, summarize: Summarizer)
      requires Valid() && AcceptsNonEmpty(summarize)
      modifies this
      ensures Valid()
      ensures recorder.blob.None? ==> Shown() == old(Shown())
      ensures recorder.blob.Some? ==> Shown() == PipelineEnd(reader, recorder.blob.value.mime, transcribe, summarize)
    {
      var started := BeginProcessing();
      if !started {
        return;
      }
      var mime := recorder.blob.value.mime;
      match Transcription(reader, mime, transcribe)
      case Fail(m) =>
        CatchFailure(m);
      case Ok(t) =>
        ReceiveTranscript(t);
        if t != "" {
          match summarize(t)
          case Ok(s) => ReceiveSummary(s);
          case Fail(m) => CatchFailure(m);
        } else {
          CatchFailure(TranscriptionFailedMessage);
        }
    }
  }

  /**
   * After the microphone is refused, the next click only resets the recorder
   * and the one after that records: the stale start guard costs one click.
   */
  method RetryAfterRefusal() returns (app: App)
    ensures app.Valid() && app.status == Recording
    ensures app.recorder.status == Recorder.Recording
  {
    app := new App();
    app.PressRecordButton(Recorder.Refused, "");
    assert app.recorder.status == Recorder.Denied && app.status == Recording;
    app.PressRecordButton(Recorder.Granted, "");
    assert app.recorder.status == Recorder.Idle && app.status == Recording;
    app.PressRecordButton(Recorder.Granted, "");
  }
}
