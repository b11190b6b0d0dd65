# Talk-track scribe: the decision logic of the transcription front end

This project models the core of a React front end for the AssemblyAI transcription service. The user hands over an audio or video file, or a URL. The page uploads it, starts a transcription job with speaker labels, and polls the job until the transcript is ready. The result is then shown as:

- a player whose sound can be limited to the selected speakers;
- a list of utterances in which the one being played is highlighted;
- a row of speaker badges that can be renamed and switched on and off.

The model is split into these modules:

- `Types` holds the transcript records: utterances with integer millisecond times and opaque speaker labels, and the transcription result.
- `Text` holds the JavaScript string and number behaviour the code relies on:
  - `trim` over the ECMAScript whitespace set
  - ASCII lower-casing
  - integer-to-decimal conversion
  - truncating `%`
  - `padStart(2, "0")`
  - a decimal reader used as the inverse of the conversion
  - the `m:ss` clock text of whole seconds, which both clocks of the code produce, and its reader
- `Service` is the client of the remote service. It covers:
  - how each of the three calls turns a reply into a value or an error;
  - the job request;
  - the MIME type chosen for an upload.

  A reply is a value handed in: an `ok` flag, a status text and a parsed body, or a transport failure.
- `IndexPage` is the upload page, a class `Page` over the page's state. Each remote call is replaced by its outcome, handed in as a parameter. The 5-second timer that re-runs the status check is replaced by a recursive call on the next outcome. The pure function `Poll` is the specification of a run of checks. The methods are proved against it, and the lemmas about it give these properties:
  - the 60-attempt ceiling
  - the time-out
  - the progress bounds and monotonicity
- `TranscriptionPlayer` covers the speaker-gated volume (the `find` over utterances) and a class `MediaPlayer` over the player's state and the media element's fields. It also has the player's seconds-valued clock text.
- `TranscriptionViewer` has:
  - the sorted, duplicate-free speaker list
  - the selected-speaker filter
  - the highlight test, shared with the player
  - display names with their fallback
  - a class `SpeakerEditor` for renaming
  - the millisecond clock text
- `ResultsSection` and `TranscriptionResultPage` cover the speaker selection: it starts as every speaker of the transcript and is replaced by a copy with one speaker flipped.
- `MediaInputSection` is the clamp of the expected-speaker count.
- `AudioUploader` covers the first-file choice of the drop zone and a class `UrlForm` for the URL field.

## Model

| member | source | states |
|---|---|---|
| Types.Labels | src/components/TranscriptionViewer.tsx:40 | `utterances.map(u => u.speaker)`: one label per utterance, in order |
| Text.TrimIsSlice | src/components/TranscriptionViewer.tsx:54-57 | `trim` returns a slice of its input with only whitespace cut on either side, whose ends are not whitespace; it is empty exactly when the input is all whitespace |
| Text.TrimIdempotent | src/components/AudioUploader.tsx:38-39 | trimming an already trimmed string changes nothing |
| Text.ToLower | src/services/assemblyai.ts:43 | lower-casing keeps the length and turns each ASCII capital into its own lower-case letter (code + 32), leaving every other character |
| Text.ToLowerIdempotent | src/services/assemblyai.ts:43 | lower-casing twice is lower-casing once |
| Text.NatToString | src/components/TranscriptionViewer.tsx:172 | `toString` of a natural number is a non-empty digit string without a leading zero |
| Text.ParseNatToString | src/components/TranscriptionViewer.tsx:172 | reading the decimal text of `n` back gives `n` |
| Text.JsRem | src/components/TranscriptionViewer.tsx:171 | JavaScript's `%`: Euclidean on non-negative operands, and carries the dividend's sign otherwise |
| Text.PadStart2 | src/components/TranscriptionViewer.tsx:172 | `padStart(2, "0")` leaves text of length 2 or more alone and otherwise puts '0' characters in front of it up to exactly 2 characters |
| Text.ClockReadsBack | src/components/TranscriptionViewer.tsx:168-173 | the `m:ss` text of whole seconds: minutes, ':' and the seconds below 60 as two digits from 00 to 59; reading it back as minutes and seconds gives the seconds |
| Service.Checked | src/services/assemblyai.ts:27-35 | only an OK reply yields a value, namely its body; a non-OK reply raises "Failed to … : " plus the status text; a transport failure passes its own message on |
| Service.UploadAudio | src/services/assemblyai.ts:27-35 | an OK upload reply yields its `upload_url`; a non-OK one raises "Failed to upload audio file: " plus the status text; a transport failure passes its own message on |
| Service.StartRequest | src/services/assemblyai.ts:63-67 | the job request carries the audio URL, asks for speaker labels and always expects 2 speakers |
| Service.StartTranscription | src/services/assemblyai.ts:70-78 | an OK start reply yields the job id; a non-OK one raises "Failed to start transcription: " plus the status text; a transport failure passes its own message on |
| Service.FailureMessageNamesStep | src/services/assemblyai.ts:70-78 | the errors of non-OK replies of two calls are equal only if the calls are the same step (upload, start or result) |
| Service.GetTranscriptionResult | src/services/assemblyai.ts:94-112 | a result is returned exactly for an OK reply whose status is not "error", and unchanged; status "error" raises "Transcription failed: " plus the server's message, or "Unknown error occurred" when that is missing or empty; a non-OK reply raises the step's error |
| Service.AfterLastDot | src/services/assemblyai.ts:43 | `split('.').pop()`: the dot-free suffix after the last '.', or the whole text when there is none |
| Service.GetMimeType | src/services/assemblyai.ts:42-53 | a listed extension gives its table type, any other (including the empty one) "audio/mpeg" |
| Service.ExtensionIsLastSegment | src/services/assemblyai.ts:43 | for `stem.ext` with a dot-free `ext`, the extension looked up is `ext` lower-cased, whatever the stem |
| Service.MimeTypeIgnoresCase | src/services/assemblyai.ts:43 | a name and its lower-cased form get the same type |
| Service.MovIsQuickTime | src/services/assemblyai.ts:44-51 | "clip.mov" is typed "video/quicktime" |
| Service.UpperCaseMp3IsMpeg | src/services/assemblyai.ts:43-52 | "Talk.MP3" is typed "audio/mpeg" |
| Service.UnlistedExtensionIsDefault | src/services/assemblyai.ts:52 | "notes.txt" falls back to "audio/mpeg" |
| Service.GetMimeTypeAsWritten | src/services/assemblyai.ts:52 | the lookup on the object literal as written agrees with `GetMimeType` except on the inherited member names, which yield the inherited member |
| Service.InheritedKeyEscapesFallback | src/services/assemblyai.ts:44-52 | "clip.constructor" yields the inherited `Object` constructor as written, and "audio/mpeg" in the corrected lookup |
| Service.BlobType | src/services/assemblyai.ts:10-12 | the blob's type is the browser-reported type when non-empty, else the extension's type, so never empty |
| IndexPage.ErrorText | src/pages/Index.tsx:150 | the toast text is the error's message, or the fixed default when the message is empty; never empty |
| IndexPage.CheckProgress | src/pages/Index.tsx:61 | a check's progress `60 + attempts/60*40` is at least 60, at most 100 within the ceiling, and 100 exactly at attempt 60 |
| IndexPage.Decide | src/pages/Index.tsx:63-78 | a thrown error ends the loop with its message; the loop completes exactly on status "completed", with that result; status "error" fails with "Transcription failed"; any other status reschedules exactly while fewer than 60 attempts were made and times out otherwise |
| IndexPage.Poll | src/pages/Index.tsx:58-82 | a run never makes more checks than replies or than 61 from attempt 0, makes at least one when a reply is there, and is left waiting only when the replies are used up |
| IndexPage.PollProgress | src/pages/Index.tsx:61-75 | every value the checks of one loop write lies in [progress of its first check, 100] and the values never decrease |
| IndexPage.PollStopsAtFirstTerminal | src/pages/Index.tsx:63-78 | the loop makes exactly one check per rescheduling plus the first terminal one, and ends with that check's verdict |
| IndexPage.PollTimesOut | src/pages/Index.tsx:55-77 | 61 non-terminal statuses from attempt 0 end the loop after exactly 61 checks with "Transcription timed out" |
| IndexPage.ThreeChecksComplete | src/pages/Index.tsx:58-84 | replies "processing", "processing", "completed" make exactly 3 checks, writing progress for attempts 0, 1, 2, and end with the result |
| IndexPage.ErrorStatusReported | src/pages/Index.tsx:71-72 | for any server message, a status "error" reply ends the loop at that check with "Transcription failed: " and that message (or "Unknown error occurred" when it is missing or empty) and writes no progress: the page's own "error" branch is never reached |
| IndexPage.CheckedProgress | src/pages/Index.tsx:61-65 | the values a loop writes, followed by 100 on completion, never decrease and never drop below 60 |
| IndexPage.SubmissionNonDecreasing | src/pages/Index.tsx:39-65 | any non-decreasing writes of at most 60 before a loop keep the whole sequence of writes non-decreasing |
| IndexPage.FileProgressNonDecreasing | src/pages/Index.tsx:39-65 | the file path's writes 0, 20, 40, the checks' values and 100 never decrease |
| IndexPage.UrlProgressNonDecreasing | src/pages/Index.tsx:102-120 | the URL path's writes 20, 40, the checks' values and 100 never decrease |
| IndexPage.Page.constructor | src/pages/Index.tsx:19-24 | the page starts with no key, not processing, progress 0, no media and no result, the bar showing 0 |
| IndexPage.Page.SetApiKey | src/pages/Index.tsx:179 | the key field holds the typed text |
| IndexPage.Page.SetProgress | src/pages/Index.tsx:22 | progress holds the value and the value is appended to the record of writes |
| IndexPage.Page.HandleError | src/pages/Index.tsx:145-153 | processing stops, progress is reset to 0, one destructive toast with the error text is added, the result is kept; the bar shows the last value written |
| IndexPage.Page.CheckOnce | src/pages/Index.tsx:59-81 | one check decides as `Decide` says, writes that check's progress, and on completion stores the result, writes 100, stops processing and adds the completion toast; on failure it runs the error handler; the bar shows the last value written |
| IndexPage.Page.PollResult | src/pages/Index.tsx:58-84 | a loop makes exactly the fetches `Poll` counts, all for the job id, writes exactly the progress `Poll` records plus the terminal write, and ends as its verdict says; while it waits the bar shows the last check's value |
| IndexPage.Page.HandleFileSelected | src/pages/Index.tsx:27-88 | with no key, only the key toast is added and nothing is called or written; otherwise the media URL is set, and an upload or start failure runs the error handler after writes 0, 20 (and 40); else the loop runs on the new job; the bar shows the last value written |
| IndexPage.Page.ProcessFile | src/pages/Index.tsx:37-87 | the try block of the file path: upload, then start, then the loop, each failure ending in the error handler with the writes made so far; the bar shows the last value written |
| IndexPage.Page.StartUploaded | src/pages/Index.tsx:49-87 | after the upload: a start failure runs the error handler after writing 40; else the loop runs on the job id; the bar shows the last value written |
| IndexPage.Page.HandleUrlSubmitted | src/pages/Index.tsx:90-143 | with no key, only the key toast is added; otherwise the URL is the media, writes 20 then 40, and a start failure runs the error handler; else the loop runs; the bar shows the last value written |
| TranscriptionPlayer.FirstActive | src/components/TranscriptionPlayer.tsx:71-76 | the index `find` stops at: no earlier utterance is active, and it is active unless it is past the end |
| TranscriptionPlayer.FindActive | src/components/TranscriptionPlayer.tsx:71-76 | nothing is found exactly when no utterance covers the time with a selected speaker; what is found is such an utterance |
| TranscriptionPlayer.GatedVolume | src/components/TranscriptionPlayer.tsx:63-83 | with original sound on, the volume is the user's; in filtered mode it is the user's when some selected speaker's utterance covers the time and 0 exactly when none does |
| TranscriptionPlayer.EndsAreAudible | src/components/TranscriptionPlayer.tsx:73-74 | both the start and the end instant of a selected utterance are audible: the range is inclusive at both ends |
| TranscriptionPlayer.TieGoesToEarlier | src/components/TranscriptionPlayer.tsx:71-76 | when one utterance ends where the next starts, the earlier one is found at that instant |
| TranscriptionPlayer.DeselectedIsSilent | src/components/TranscriptionPlayer.tsx:75-79 | an utterance of a deselected speaker alone is silent in filtered mode |
| TranscriptionPlayer.MediaPlayer.constructor | src/components/TranscriptionPlayer.tsx:31-37 | not playing, time 0, volume 1, not muted, original sound on, no error; the element at position 0 of media of the given length, so its position lies within the media |
| TranscriptionPlayer.MediaPlayer.GateVolume | src/components/TranscriptionPlayer.tsx:63-83 | without media, utterances or a selection the element's volume is untouched; otherwise it becomes the gated volume at the current time |
| TranscriptionPlayer.MediaPlayer.TogglePlay | src/components/TranscriptionPlayer.tsx:85-99 | with media, the playing flag and the element flip together and starting play clears the error; without media nothing changes |
| TranscriptionPlayer.MediaPlayer.PlaybackRejected | src/components/TranscriptionPlayer.tsx:91-95 | a rejected play sets the play error and clears the playing flag |
| TranscriptionPlayer.MediaPlayer.MediaFailed | src/components/TranscriptionPlayer.tsx:115-119 | a media error sets the load error and clears the playing flag |
| TranscriptionPlayer.MediaPlayer.TimeUpdate | src/components/TranscriptionPlayer.tsx:101-106 | with media, the shown time and the reported time are the element's position; without media nothing is reported |
| TranscriptionPlayer.MediaPlayer.SkipTime | src/components/TranscriptionPlayer.tsx:121-125 | with media, the element seeks the given number of seconds from its position, kept within [0, duration]; without media nothing moves; a position within the media stays within it |
| TranscriptionPlayer.SeekTarget | src/components/TranscriptionPlayer.tsx:123 | a seek lands within [0, duration]: on the target inside that range, on 0 before it and on the end after it |
| TranscriptionPlayer.MediaPlayer.SkipBackThenForward | src/components/TranscriptionPlayer.tsx:196-220 | from any position within the media, the −10 and +10 buttons in turn leave a position from 10 s to the end where it was; from nearer the start they end at 10 s, or at the end of media shorter than that |
| TranscriptionPlayer.MediaPlayer.ToggleMute | src/components/TranscriptionPlayer.tsx:127-132 | with media, the muted flag and the element's muted flag both become the negation of the old flag, so they agree afterwards |
| TranscriptionPlayer.MediaPlayer.ToggleMuteTwice | src/components/TranscriptionPlayer.tsx:127-132 | muting twice restores the flag, and the element's flag too when they agreed before |
| TranscriptionPlayer.MediaPlayer.ToggleOriginalSound | src/components/TranscriptionPlayer.tsx:134-136 | the original-sound flag flips |
| TranscriptionPlayer.MediaPlayer.ToggleOriginalSoundTwice | src/components/TranscriptionPlayer.tsx:134-136 | flipping it twice restores it |
| TranscriptionPlayer.FormatTime | src/components/TranscriptionPlayer.tsx:138-142 | at a non-negative time in seconds the text is the `m:ss` clock of the whole seconds |
| TranscriptionViewer.Distinct | src/components/TranscriptionViewer.tsx:40 | `new Set`: no duplicates and the same members |
| TranscriptionViewer.Sort | src/components/TranscriptionViewer.tsx:40 | `sort()`: a sorted permutation under the code-unit order |
| TranscriptionViewer.StrLessTotal | src/components/TranscriptionViewer.tsx:40 | the order `sort()` uses relates any two different labels |
| TranscriptionViewer.Speakers | src/components/TranscriptionViewer.tsx:40 | the speaker list is strictly sorted, duplicate-free and holds exactly the labels that occur in the utterances |
| TranscriptionViewer.ShownIndices | src/components/TranscriptionViewer.tsx:126-127 | the positions kept by the filter are increasing and hold exactly the utterances whose speaker is selected |
| TranscriptionViewer.Visible | src/components/TranscriptionViewer.tsx:126-127 | the shown list is the utterances at those positions, in their original order |
| TranscriptionViewer.AllSelectedShowsAll | src/components/TranscriptionViewer.tsx:126-127 | when every speaker is selected, the whole transcript is shown unchanged |
| TranscriptionViewer.NoneSelectedShowsNothing | src/components/TranscriptionViewer.tsx:126-127 | with nothing selected, nothing is shown |
| TranscriptionViewer.HighlightMatchesGate | src/components/TranscriptionViewer.tsx:133-134 | a shown card is highlighted while its range covers the time, both ends included, the same test as the player's; some shown card is highlighted exactly when the player finds an active utterance, so the sound plays exactly when a card is highlighted |
| TranscriptionViewer.DisplayName | src/components/TranscriptionViewer.tsx:92 | the badge shows a non-empty custom name when there is one, otherwise "Speaker " and the label |
| TranscriptionViewer.RenameShowsTrimmedName | src/components/TranscriptionViewer.tsx:53-62 | after a rename with a non-blank name the speaker shows the trimmed name and every other speaker's title is unchanged |
| TranscriptionViewer.NamedSpeakersShowTheirName | src/components/TranscriptionViewer.tsx:143-144 | in a map written only by renames, any named speaker shows its stored name |
| TranscriptionViewer.SpeakerEditor.constructor | src/components/TranscriptionViewer.tsx:41-43 | no names, no speaker being edited, empty draft |
| TranscriptionViewer.SpeakerEditor.OpenEditor | src/components/TranscriptionViewer.tsx:71-74 | opening the popover edits that speaker, with the draft set to its name or "" |
| TranscriptionViewer.SpeakerEditor.EditName | src/components/TranscriptionViewer.tsx:110 | the draft holds the typed text |
| TranscriptionViewer.SpeakerEditor.Rename | src/components/TranscriptionViewer.tsx:53-62 | a blank draft leaves the names unchanged; otherwise only that speaker is mapped to the trimmed draft; the editor is always closed with an empty draft; stored names stay non-blank and trimmed |
| TranscriptionViewer.FormatMs | src/components/TranscriptionViewer.tsx:168-173 | at a non-negative time in ms the text is the `m:ss` clock of the whole seconds ⌊ms/1000⌋, so reading it back gives ⌊ms/1000⌋ |
| TranscriptionViewer.PlayerClockAgrees | src/components/TranscriptionViewer.tsx:168-173 | the player's clock at `ms/1000` seconds reads the same as the viewer's clock at `ms` |
| ResultsSection.Toggle | src/components/ResultsSection.tsx:65-73 | a selected speaker is removed, an unselected one added, every other speaker's membership is kept |
| ResultsSection.ToggleTwice | src/components/ResultsSection.tsx:65-73 | toggling the same speaker twice returns the original set |
| ResultsSection.LastSpeakerCanBeDeselected | src/components/ResultsSection.tsx:67-69 | deselecting the only selected speaker yields the empty selection |
| ResultsSection.TogglesCommute | src/components/ResultsSection.tsx:65-73 | toggles of two speakers can be applied in either order |
| TranscriptionResultPage.InitialSelection | src/pages/TranscriptionResult.tsx:15-17 | the initial selection is exactly the set of speakers occurring in the utterances, empty for none |
| TranscriptionResultPage.InitiallyAllShown | src/pages/TranscriptionResult.tsx:15-17 | every utterance's speaker starts selected, so the viewer first shows the whole transcript |
| TranscriptionResultPage.InitialSelectionIsSpeakerList | src/pages/TranscriptionResult.tsx:16 | the initial selection has the same members as the viewer's speaker list |
| TranscriptionResultPage.ResultView.constructor | src/pages/TranscriptionResult.tsx:15-17 | the page state starts at the initial selection |
| TranscriptionResultPage.ResultView.ToggleSpeaker | src/pages/TranscriptionResult.tsx:43-51 | the state becomes the flipped copy |
| TranscriptionResultPage.ResultView.ToggleSpeakerTwice | src/pages/TranscriptionResult.tsx:43-51 | two clicks on one badge restore the selection |
| MediaInputSection.ClampSpeakers | src/components/MediaInputSection.tsx:37 | the count is in 1..10; a parsed value in range is kept; NaN, 0 and negatives give 1; values above 10 give 10 |
| MediaInputSection.ClampIdempotent | src/components/MediaInputSection.tsx:37 | re-clamping a stored count changes nothing |
| AudioUploader.DroppedFile | src/components/AudioUploader.tsx:18-25 | an empty drop forwards nothing; otherwise exactly the first file |
| AudioUploader.SubmitDisabled | src/components/AudioUploader.tsx:86 | the button is disabled exactly when the field holds only whitespace or a job is running |
| AudioUploader.UrlForm.constructor | src/components/AudioUploader.tsx:16 | the field starts empty |
| AudioUploader.UrlForm.Edit | src/components/AudioUploader.tsx:83 | the field holds the typed text |
| AudioUploader.UrlForm.Submit | src/components/AudioUploader.tsx:36-42 | a blank field submits nothing and is kept; otherwise the trimmed text is submitted and the field cleared |
| AudioUploader.SubmittedIsTrimmed | src/components/AudioUploader.tsx:38-39 | a submitted URL is non-blank, has no whitespace at either end and is a fixed point of `trim` |
| AudioUploader.UrlForm.EnabledSubmitForwards | src/components/AudioUploader.tsx:86 | pressing the button while it is enabled always forwards the trimmed, non-blank URL and clears the field |

## Left out

- Network I/O. `fetch`, `FormData`, the `Blob` object, `response.json()`/`response.text()` and `URL.createObjectURL` are left out. Replies, and the object URL of a file, are values handed in. A `response.json()` that throws is not modelled.
- Timing and concurrency. `setTimeout`, the 5-second interval and the async ordering are left out. Each check runs when its outcome is supplied. Two loops started by overlapping submissions could interleave on the same state; the model runs one at a time.
- The media element and the DOM. Play/pause promises, metadata and duration events, the temporary `<video>` probe that tells audio from video, and the `document.querySelector` seeks of the viewer and the result pages are left out. Only the element's position, volume, muted and playing fields are modelled.
- Service.BlobType: an upload is modelled on the corrected MIME lookup. For a file such as "clip.constructor" with no browser-reported type, the code as written would hand the inherited `Object` constructor to `new Blob`, whose string form would become the blob's type; the model gives "audio/mpeg" (see "## Findings").
- TranscriptionPlayer.MediaPlayer.SkipTime: the position is whole milliseconds, and the element's duration is fixed when the player is built. The metadata event that reports it is left out with the DOM.
- Floating-point time and progress. Playback time is integer milliseconds in the gating and highlighting (the source compares `currentTime * 1000` with the bounds). Progress is an exact `real`. `TranscriptionPlayer.FormatTime` takes exact real seconds.
- The seek slider, the volume slider and `duration` are left out. They only assign fields from the DOM.
- Text.ToLower: lower-cases ASCII capitals only. Other letters are left unchanged, where `toLowerCase` would also map non-ASCII capitals.
- TranscriptionViewer.Sort: orders labels by character code. `sort()` compares UTF-16 code units, which agree with this for labels in the Basic Multilingual Plane.
- `parseInt` is not modelled. Its outcome is the `Option<int>` input of `MediaInputSection.ClampSpeakers`, with `None` for NaN.
- TranscriptionViewer.DisplayName: reads the names as a map of their own entries. `speakerNames[speaker]` on a plain object would also find inherited members for labels such as "constructor".
- Rendering is left out: JSX, styling, `SPEAKER_COLORS`, popovers, toasts as visuals, and `cn`. Toasts are modelled as a list of title, description and variant values.
- src/components/LibrarySection.tsx is not part of this model. It is rendering only; session persistence is not in this code.
- The render block of src/pages/Index.tsx (lines 155-223) is not part of this model. It is an outdated revision that passes `audioUrl` where `mediaUrl` is expected and no selection; it holds no logic.
- Clicking an utterance (`onUtteranceClick`, `playSpeakerSegment`) only seeks the DOM element, so it is left out with the DOM.
- Console logging is left out.
- Behaviour of the code worth noting:
  - A job whose status is "error" is reported by `getTranscriptionResult` itself, with "Transcription failed: " followed by the service's message. The page's own `result.status === "error"` branch (src/pages/Index.tsx:71-72) can never run. `IndexPage.ErrorStatusReported` proves this.
  - The check at attempt 60 writes progress 100 before timing out (`IndexPage.CheckProgress`).
  - The job request always asks for two speakers (src/services/assemblyai.ts:66). The clamped speaker count of the media input section is never passed to it.

## Findings

| source | as written | input that shows it | evidently intended | confidence | as-written member | corrected member |
|---|---|---|---|---|---|---|
| src/services/assemblyai.ts:52 | `mimeTypes[ext \|\| ''] \|\| 'audio/mpeg'` looks the extension up on an object literal, which also finds members inherited from `Object.prototype`; those are truthy, so the fallback is skipped | a file named "clip.constructor" (or "x.__proto__") without a browser-reported type | an extension outside the six listed ones gives "audio/mpeg" | medium, not executed | Service.InheritedKeyEscapesFallback | Service.GetMimeType |
