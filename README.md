# Meeting Summarizer — a Dafny model of the client core

The Meeting Summarizer is a browser client. It records a meeting through the
microphone, sends the audio to a hosted model for a transcript, asks the same
service for a summary, and shows both. This project models the logic of that
client and proves properties of it. The browser and the network become parameters.

- **Recorder** (`recorder.dfy`): the `useAudioRecorder` hook as a class `AudioRecorder`.
  - It has four statuses (`idle`, `recording`, `stopped`, `denied`).
  - Its buffer of recorded chunks is filled by `dataavailable` events and becomes one blob on stop.
  - The microphone outcome is a parameter (`Granted` / `Refused`).
  - A chunk is a `(size, type)` record.
- **Record button** (`recorder_control.dfy`): how `RecorderControl` chooses between start and stop, and its label and icon.
- **App** (`app.dfy`): the application component as a class `App`.
  - It owns a recorder and holds the six-state pipeline status, the transcript, the summary and the error.
  - Its handlers are methods.
  - The transcribe-and-summarize pipeline is proved to end where the pure function `PipelineEnd` says.
  - The two remote stages are inputs that return `Ok(text)` or `Fail(message)`.
  - The summarizer is a partial function defined on non-empty text, which is the guard at the head of `summarizeText` (services/geminiService.ts:35-38).
  - The status message and the loading and disabled flags are pure functions.
- **Markdown** (`markdown.dfy`): `MarkdownContent`.
  - Each line of the text is classified as a list item, a spacer or a paragraph.
  - The `reduce` that folds runs of items into lists is the method `GroupBlocks`.
  - `GroupBlocks` is proved equal to the reference grouping `Group`.
  - Order, flattening, uniqueness and block-count lemmas are proved about `Group`.
- **Result card** (`result_card.dfy`): which body a card shows, when its copy button is offered, and what a copy does (class `CopyButton`).
- **Audio utils** (`audio_utils.dfy`): how `blobToBase64` settles, and the payload `split(',')[1]` cut out of the data URL.
- **Text** (`text.dfy`): the JavaScript string primitives the code uses, over `seq<char>`. These are `split` on one character with its inverse `join`, `trim` with the ECMAScript white-space set, `startsWith` and `toLowerCase`.

React state updates are modelled as sequential steps on the component's fields. Two points of React's timing are kept because they change the outcome:

- `startRecording` and `stopRecording` are `useCallback` closures over `recordingStatus`. Their guards therefore read the status from the render that created them. The methods take that status as the parameter `seen`.
- `handleStartRecording` resets the recorder and then calls the start closure of the same render. Its guard therefore sees the status from before the reset. After a refused microphone, the next click only resets the recorder to `idle` while the app shows `recording`; it takes one more click to record (`App.RetryAfterRefusal`).

Two details follow the code:

- The blob's type is `chunks[0]?.type || 'audio/webm'`, so a first chunk with an empty type also falls back to `audio/webm`.
- `split(',')[1]` of a string without a comma is `undefined` (`None`). The promise still resolves, with that value.

The reader's `onerror` rejects with the error event itself. That event has no `message`, so a reader error carries no message in the model. The rejection it produces has the empty message, which stands for the missing one, and the app then shows 'An unknown error occurred.' (`App.ReadFailuresShown`).

## Model

| member | source | states |
|---|---|---|
| Text.Split | components/ResultCard.tsx:23 | one field more than there are separators; no field contains the separator |
| Text.JoinSplit | utils/audioUtils.ts:8 | joining the fields of a split with the same separator gives back the string |
| Text.SplitJoin | components/ResultCard.tsx:23 | splitting the join of separator-free fields gives the fields back |
| Text.Trim | components/ResultCard.tsx:25 | trim is empty exactly when the line is all white space; otherwise it is the slice between the white-space prefix and suffix, and neither starts nor ends with white space |
| Text.StartsWith | components/ResultCard.tsx:27 | `startsWith`: the prefix is at most as long as the string and equals its opening characters (definition) |
| Text.ToLower | components/ResultCard.tsx:94 | same length; each character lower-cased; no capital A–Z remains |
| AudioUtils.Payload | utils/audioUtils.ts:8 | `split(',')[1]` is defined exactly when the string has a comma; it is then the text after the first comma up to the next comma or the end, comma-free and shorter than the string |
| AudioUtils.PayloadOfFields | utils/audioUtils.ts:8 | for any comma-free header and field followed by nothing or by comma-led text, the payload is exactly that field |
| AudioUtils.PayloadOfDataUrl | utils/audioUtils.ts:7-8 | for `header,data` with a single comma the payload is exactly `data` |
| AudioUtils.BlobToBase64 | utils/audioUtils.ts:5-16 | resolves exactly for a string result, with its payload; a non-string result rejects with "Failed to read blob as string"; a reader error rejects with the error event, which has no message |
| AudioUtils.EncodedBlobResolvesToPayload | utils/audioUtils.ts:7-9 | reading a blob as `data:<mime>;base64,<payload>` resolves to exactly the payload |
| Recorder.Kept | hooks/useAudioRecorder.ts:25-29 | the buffer holds exactly the arrived chunks that have data (a chunk is kept iff it arrived with size > 0), no more of them than arrived, with the same total size |
| Recorder.KeptAppend | hooks/useAudioRecorder.ts:25-29 | filtering a stream of events equals filtering its parts one after the other, so the buffer keeps arrival order |
| Recorder.MakeBlob | hooks/useAudioRecorder.ts:32 | the blob holds exactly the buffered chunks; its type is the first chunk's type when there is one and it is non-empty, and 'audio/webm' in every other case |
| Recorder.BlobHasData | hooks/useAudioRecorder.ts:26-32 | a blob built from the buffer has data exactly when a chunk arrived |
| Recorder.AudioRecorder.constructor | hooks/useAudioRecorder.ts:6-11 | starts `idle` with no blob, URL, permission error, recorder or chunks |
| Recorder.AudioRecorder.StartRecording | hooks/useAudioRecorder.ts:13-47 | always clears the permission error and changes nothing else unless the seen status is idle or stopped; granted: `recording` with an empty buffer; refused: `denied` with the fixed message; the earlier blob and URL are untouched |
| Recorder.AudioRecorder.OnDataAvailable | hooks/useAudioRecorder.ts:25-29 | a chunk with data is appended at the end of the buffer; an empty one leaves it unchanged |
| Recorder.AudioRecorder.OnStop | hooks/useAudioRecorder.ts:31-38 | the blob is MakeBlob of the buffer, the URL is the new one, status `stopped` |
| Recorder.AudioRecorder.StopRecording | hooks/useAudioRecorder.ts:49-53 | acts exactly when a recorder exists and the seen status is `recording`; otherwise blob, URL and status are unchanged; buffer and permission error are never touched |
| Recorder.AudioRecorder.ResetRecording | hooks/useAudioRecorder.ts:55-64 | back to `idle` with no blob, URL, chunks or recorder; the permission error is kept |
| RecorderControl.ClickAction | components/RecorderControl.tsx:13-21 | a click stops exactly while recording and starts from every other status, including `stopped` and `denied` |
| RecorderControl.IsRecording | components/RecorderControl.tsx:13 | `isRecording`: the status is `recording` (definition) |
| RecorderControl.AriaLabel | components/RecorderControl.tsx:32 | the label is "Stop recording" or "Start recording" |
| RecorderControl.ButtonIcon | components/RecorderControl.tsx:34 | the stop icon while recording, the microphone otherwise (definition; tied to the click by ControlAgrees) |
| RecorderControl.ControlAgrees | components/RecorderControl.tsx:32-34 | the label says stop, and the icon is the stop icon, exactly when a click stops; otherwise it says start and shows the microphone |
| Markdown.IsBullet | components/ResultCard.tsx:27 | a trimmed line is a bullet when it starts with "* " or "- " (definition) |
| Markdown.Classify | components/ResultCard.tsx:24-35 | an item exactly when the trimmed line starts with "* " or "- ", holding the trimmed line minus two characters; a spacer exactly when the line is all white space; otherwise a paragraph of the untrimmed line |
| Markdown.BareMarkerIsParagraph | components/ResultCard.tsx:25-34 | a marker followed only by white space is a paragraph of the untrimmed line, not an empty item |
| Markdown.Elements | components/ResultCard.tsx:22-35 | one element per line, the i-th being the classification of the i-th line |
| Markdown.Group | components/ResultCard.tsx:37-52 | flattening the blocks gives the elements back; lists are non-empty and never adjacent; the first block is a list exactly when the first element is an item |
| Markdown.GroupItemsThenRest | components/ResultCard.tsx:39-47 | a maximal run of items becomes exactly one list of those items |
| Markdown.GroupOfFlatten | components/ResultCard.tsx:37-52 | every well-grouped block sequence is the grouping of its own elements |
| Markdown.GroupingIsUnique | components/ResultCard.tsx:37-52 | two well-grouped block sequences with the same elements are equal |
| Markdown.GroupCount | components/ResultCard.tsx:37-52 | the number of blocks is the number of non-item lines plus the number of item runs |
| Markdown.AppendBlock | components/ResultCard.tsx:46-49 | pushing a block that may follow keeps the grouping well formed and appends its elements |
| Markdown.ExtendLastList | components/ResultCard.tsx:40-43 | pushing an item into the trailing list keeps the grouping well formed and appends the item |
| Markdown.GroupBlocks | components/ResultCard.tsx:37-52 | the left-to-right fold equals the reference grouping: same elements in order, runs of items folded into single lists |
| Markdown.MarkdownBlocks | components/ResultCard.tsx:21-55 | the rendered blocks flatten to the per-line elements, are well grouped, and number the non-item lines plus the item runs |
| ResultCard.CardBody | components/ResultCard.tsx:88-96 | skeleton exactly when loading; rendered markdown exactly when not loading and content is non-empty; otherwise "Your <lower-cased title> will appear here." |
| ResultCard.ShowCopyButton | components/ResultCard.tsx:75 | the copy button shows when content is non-empty and not loading (definition; tied to the body by CopyButtonOnlyWithRenderedContent) |
| ResultCard.CopyButtonOnlyWithRenderedContent | components/ResultCard.tsx:75 | the copy button is offered exactly when the body shows rendered content |
| ResultCard.TranscriptPlaceholder | components/ResultCard.tsx:94 | the empty transcript card reads "Your transcript will appear here." |
| ResultCard.SummaryPlaceholder | components/ResultCard.tsx:94 | the empty summary card reads "Your summary will appear here." |
| ResultCard.CopyButton.constructor | components/ResultCard.tsx:58 | not copied, nothing written |
| ResultCard.CopyButton.HandleCopy | components/ResultCard.tsx:60-65 | empty content is a no-op; otherwise the content is written to the clipboard and `copied` is set |
| ResultCard.CopyButton.CopiedExpired | components/ResultCard.tsx:64 | the timer callback clears `copied` |
| App.StatusMessage | App.tsx:67-77 | every one of the six statuses has a non-empty message |
| App.StatusMessagesDistinct | App.tsx:67-77 | different statuses have different messages |
| App.TranscriptLoading | App.tsx:117 | the transcript card loads while processing with no transcript yet (definition) |
| App.SummaryLoading | App.tsx:118 | the summary card loads while processing once a transcript is there and the summary is not (definition) |
| App.ActionDisabled | App.tsx:104 | the transcribe button is disabled while processing or without a blob (definition) |
| App.ActionCaption | App.tsx:108 | the caption is "Processing..." exactly while processing |
| App.LoadingFlagsExclusive | App.tsx:117-118 | the two cards never load together; either loads only while processing, and then the button is disabled |
| App.ErrorText | App.tsx:62 | the error shown is the message, or 'An unknown error occurred.' when that is empty; never empty |
| App.Transcription | App.tsx:47-49 | a rejected read fails the first stage with its message; a resolved read hands the payload and the blob type to the transcriber |
| App.ReadFailuresShown | App.tsx:46-63 | a reader error ends in `error` with 'An unknown error occurred.'; a non-string read ends in `error` with "Failed to read blob as string"; neither shows a transcript or summary |
| App.PipelineEnd | App.tsx:46-64 | ends `summarized` exactly when both stages succeed with a non-empty transcript, otherwise `error` with a non-empty message and no summary; an empty transcript gives "Transcription failed, cannot summarize."; a received transcript is kept when summarizing fails |
| App.App.constructor | App.tsx:13-17 | `idle`, nothing shown, a fresh idle recorder without blob, URL, permission error, MediaRecorder or chunks |
| App.App.ResetState | App.tsx:30-36 | resets the recorder, clears transcript, summary and error, status `idle`; the permission error stays |
| App.App.HandleStartRecording | App.tsx:19-23 | transcript, summary and error cleared and status `recording` whatever the microphone does; the recorder's blob, URL and buffer are empty; it records or is denied from idle or stopped, and stays reset to `idle` from recording or denied |
| App.App.HandleStopRecording | App.tsx:25-28 | status `recorded` unconditionally; the recorder stops only if it holds a MediaRecorder and was recording, and otherwise keeps its status, blob and URL; buffer, MediaRecorder, permission error, transcript, summary and error unchanged |
| App.App.PressRecordButton | App.tsx:94-98 | while recording, a stop: `recorded`, the recorder stopped with the blob of its buffer, results kept; otherwise a start: results cleared, no blob, URL or chunks, and the recorder records, is denied, or (from `denied`) stays `idle` |
| App.App.BeginProcessing | App.tsx:39-44 | without a blob nothing changes; with one, status `processing` with transcript, summary and error empty and only the transcript card loading |
| App.App.ReceiveTranscript | App.tsx:49-50 | the transcript is shown; a non-empty one moves the loading skeleton to the summary card |
| App.App.ReceiveSummary | App.tsx:53-55 | the summary is shown, status `summarized`, no card loading |
| App.App.CatchFailure | App.tsx:60-63 | status `error` with the message or the fallback |
| App.App.HandleTranscribeAndSummarize | App.tsx:38-65 | a no-op without a blob; otherwise ends exactly at PipelineEnd for the blob's type, the summarizer only ever asked about non-empty text |
| App.RetryAfterRefusal | App.tsx:19-23 | after a refused microphone, the third click is the one that records |

## Left out

- The remote transcriber and summarizer (services/geminiService.ts): prompts and API calls. Each stage is an `Ok`/`Fail` input. The summarizer's empty-text guard is its precondition.
- FileReader, MediaRecorder, `getUserMedia`, `URL.createObjectURL`/`revokeObjectURL` and the clipboard are browser APIs. Their outcomes are parameters: the reader event, the microphone access, each chunk, the URL string. Revoking the old URL and releasing the microphone tracks have no effect on the modelled state.
- The two-second timer that clears the "copied" flag is not modelled as time. Its callback is the separate step `CopiedExpired`.
- React's deferred and batched state updates are not modelled, and neither is the interleaving of the awaited calls. Each handler is a sequential step; the stale-closure status is the `seen` parameter.
- Recorder.AudioRecorder.OnDataAvailable: the browser's ordering, where the last `dataavailable` event precedes `stop`, is not enforced. Chunks arriving after `onstop` are kept in the buffer but not added to the blob.
- `new Blob` normalises its `type` (lower-cased, emptied when it holds non-printable characters). Recorder.MakeBlob keeps the chunk's type as given, so its never-empty type is a fact of the model's fallback, not of the browser's normalisation.
- Recorder.AudioRecorder.StartRecording: a `new MediaRecorder` or `start()` that throws after the microphone was granted also ends in `denied` with the permission message. By then the recorder reference may be set and the buffer cleared. The model's `Refused` is only the refusal of the microphone and does not cover that failure.
- Text.ToLower: lower-cases only the ASCII letters A–Z, not the full Unicode case mapping of `toLowerCase`. Titles in this program are ASCII.
- Icons, JSX layout, CSS classes, the pulsing animation and `console.error` logging are view-only and not modelled.
- `RecordingStatus` comes from a `types.ts` that is not part of this model. Its four values are taken from how the hook uses them.
