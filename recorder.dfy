/**
 * The `useAudioRecorder` hook (hooks/useAudioRecorder.ts): a four-state
 * recorder with a buffer of recorded chunks that becomes one audio blob on
 * stop. The browser's microphone prompt, MediaRecorder and object URLs are
 * parameters: the microphone outcome is `access`, each `dataavailable` event
 * is a call to OnDataAvailable, and the URL minted for the blob is `url`.
 */
module Recorder {
  import opened Wrappers

  datatype RecordingStatus = Idle | Recording | Stopped | Denied

  /** The outcome of `getUserMedia({ audio: true })`. */
  datatype MicAccess = Granted | Refused

  /** One `dataavailable` payload: its byte size and MIME type. */
  datatype Chunk = Chunk(size: nat, mime: string)

  /** `new Blob(parts, { type: mime })`. */
  datatype AudioBlob = AudioBlob(parts: seq<Chunk>, mime: string)

  const DefaultMime := "audio/webm"
  const PermissionMessage := "Microphone access denied. Please allow microphone permissions in your browser settings."

  /** Total byte size of a run of chunks (a Blob's `size`). */
  function Size(parts: seq<Chunk>): nat {
    if parts == [] then 0 else parts[0].size + Size(parts[1..])
  }

  predicate AllNonEmpty(parts: seq<Chunk>) {
    forall i :: 0 <= i < |parts| ==> parts[i].size > 0
  }

  /** The chunks a sequence of `dataavailable` events leaves in the buffer: the non-empty ones, in arrival order. */
  function Kept(events: seq<Chunk>): (kept: seq<Chunk>)
    ensures AllNonEmpty(kept)
    ensures |kept| <= |events|
    ensures Size(kept) == Size(events)
    ensures forall c :: c in kept <==> c in events && c.size > 0
  {
    if events == [] then []
    else if events[0].size > 0 then [events[0]] + Kept(events[1..])
    else Kept(events[1..])
  }

  /** Keeping distributes over a split of the event stream, so the buffer can be filled one event at a time. */
  lemma {:induction false} KeptAppend(a: seq<Chunk>, b: seq<Chunk>)
    ensures Kept(a + b) == Kept(a) + Kept(b)
  {
    if a == [] {
      assert a + b == b;
    } else {
      assert (a + b)[1..] == a[1..] + b;
      KeptAppend(a[1..], b);
    }
  }

  /**
   * The `onstop` blob: exactly the buffered chunks, typed by the first chunk's
   * type, or 'audio/webm' when there is no chunk or its type is empty.
   */
  function MakeBlob(chunks: seq<Chunk>): (b: AudioBlob)
    ensures b.parts == chunks
    ensures b.mime != ""
    ensures chunks != [] && chunks[0].mime != "" ==> b.mime == chunks[0].mime
    ensures !(chunks != [] && chunks[0].mime != "") ==> b.mime == DefaultMime
  {
    AudioBlob(chunks, if chunks != [] && chunks[0].mime != "" then chunks[0].mime else DefaultMime)
  }

  /** A blob built from non-empty chunks holds data exactly when at least one chunk arrived. */
  lemma {:induction false} BlobHasData(chunks: seq<Chunk>)
    requires AllNonEmpty(chunks)
    ensures Size(MakeBlob(chunks).parts) > 0 <==> chunks != []
  {
  }

  class AudioRecorder {
    var status: RecordingStatus
    var blob: Option<AudioBlob>
    var url: Option<string>
    var permissionError: Option<string>
    /** Whether `mediaRecorderRef.current` holds a recorder. */
    var hasMediaRecorder: bool
    /** `audioChunksRef.current`. */
    var chunks: seq<Chunk>

    ghost predicate Valid()
      reads this
    {
      AllNonEmpty(chunks) &&
      (blob.Some? <==> url.Some?) &&
      (blob.Some? ==> AllNonEmpty(blob.value.parts) && blob.value.mime != "") &&
      (permissionError.Some? ==> permissionError.value == PermissionMessage) &&
      (status == Recording ==> hasMediaRecorder) &&
      (status == Stopped ==> blob.Some?) &&
      (status == Idle ==> blob.None? && !hasMediaRecorder)
    }

    /** The hook's initial state. */
    constructor ()
      ensures Valid()
      ensures status == Idle && blob.None? && url.None? && permissionError.None?
      ensures !hasMediaRecorder && chunks == []
    {
      status := Idle;
      blob := None;
      url := None;
      permissionError := None;
      hasMediaRecorder := false;
      chunks := [];
    }

    /**
     * `startRecording`. `seen` is the status the callback closed over when it
     * was created (the current status when the hook is used on its own). The
     * permission error is always cleared; nothing else happens unless `seen`
     * is idle or stopped. A granted microphone starts a fresh recording with an
     * empty buffer; a refused one ends in `denied` with the fixed message.
     * The blob and URL of an earlier recording are left alone either way.
     */
    method StartRecording(seen: RecordingStatus, access: MicAccess)
      requires Valid()
      modifies this
      ensures Valid()
      ensures blob == old(blob) && url == old(url)
      ensures seen != Idle && seen != Stopped ==>
        status == old(status) && permissionError.None? &&
        hasMediaRecorder == old(hasMediaRecorder) && chunks == old(chunks)
      ensures (seen == Idle || seen == Stopped) && access == Granted ==>
        status == Recording && permissionError.None? && hasMediaRecorder && chunks == []
      ensures (seen == Idle || seen == Stopped) && access == Refused ==>
        status == Denied && permissionError == Some(PermissionMessage) &&
        hasMediaRecorder == old(hasMediaRecorder) && chunks == old(chunks)
    {
      permissionError := None;
      if seen != Idle && seen != Stopped {
        return;
      }
      match access
      case Granted =>
        status := Recording;
        hasMediaRecorder := true;
        chunks := [];
      case Refused =>
        permissionError := Some(PermissionMessage);
        status := Denied;
    }

    /** The `ondataavailable` handler: a chunk with data is appended to the buffer, an empty one is dropped. */
    method OnDataAvailable(c: Chunk)
      requires Valid()
      modifies this`chunks
      ensures Valid()
      ensures chunks == old(chunks) + Kept([c])
    {
      if c.size > 0 {
        chunks := chunks + [c];
      }
    }

    /** The `onstop` handler: the buffer becomes the blob, the blob gets `url`, the status becomes `stopped`. */
    method OnStop(newUrl: string)
      requires Valid()
      modifies this`blob, this`url, this`status
      ensures Valid()
      ensures blob == Some(MakeBlob(chunks)) && url == Some(newUrl) && status == Stopped
    {
      blob := Some(MakeBlob(chunks));
      url := Some(newUrl);
      status := Stopped;
    }

    /**
     * `stopRecording`: only when a recorder exists and `seen` (the status the
     * callback closed over) is `recording` does the recorder stop, which runs
     * its `onstop` handler; otherwise nothing changes.
     */
    method StopRecording(seen: RecordingStatus, newUrl: string)
      requires Valid()
      modifies this
      ensures Valid()
      ensures permissionError == old(permissionError) && chunks == old(chunks)
      ensures hasMediaRecorder == old(hasMediaRecorder)
      ensures old(hasMediaRecorder) && seen == Recording ==>
        blob == Some(MakeBlob(chunks)) && url == Some(newUrl) && status == Stopped
      ensures !(old(hasMediaRecorder) && seen == Recording) ==>
        blob == old(blob) && url == old(url) && status == old(status)
    {
      if hasMediaRecorder && seen == Recording {
        OnStop(newUrl);
      }
    }

    /**
     * `resetRecording`: back to `idle` with no blob, URL, chunks or recorder;
     * the permission error is left as it was.
     */
    method ResetRecording()
      requires Valid()
      modifies this
      ensures Valid()
      ensures status == Idle && blob.None? && url.None? && chunks == [] && !hasMediaRecorder
      ensures permissionError == old(permissionError)
    {
      blob := None;
      url := None;
      status := Idle;
      chunks := [];
      hasMediaRecorder := false;
    }
  }
}
