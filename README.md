# Medical assistant front end and back end, modelled in Dafny

This project models the logic of an "augmented reality medical assistant". The
browser records a session through two components:

- a speech-capture component that transcribes the doctor through the browser's
  speech recogniser, or falls back to manual text entry;
- a camera panel that keeps the last non-blank frame.

When the stream ends, the host page posts the transcript to an Express back end.
The back end asks a language model for an answer and stores it. A result panel
then formats that answer as a numbered list, a bullet list or a fixed note. A
small command-line tool installs reference face images.

The modules follow the source files:

| module | file | form |
|---|---|---|
| `AudioRecorder` | frontend/src/components/AudioRecorder.js | a `Recorder` class with one method per handler and per effect; the same moves as step functions over a `RecorderState` value, with the lemmas stated on them |
| `App` | frontend/src/App.js | a `Host` class for the page state; the payload and transcript rules as functions |
| `VideoCapture` | frontend/src/components/VideoCapture.js | `IsImageBlank` as a stepping loop; a `Camera` class whose stream is an `array` of live track flags |
| `ResultDisplay` | frontend/src/components/ResultDisplay.js | pure functions and lemmas |
| `Server` | express-backend/server.js | pure functions for the route's pieces; the route itself as a method over an `Env` of outside outcomes |
| `AddReferenceImage` | express-backend/add_reference_image.js | pure functions for the argument checks |
| `Text`, `Api`, `Wrappers` | (shared) | JavaScript string primitives (`trim`, `split`, `parseInt` digits, `includes`); the JSON answer of `/api/process`; `Option` and `Result` |

### How the speech component is modelled

- **State.** The component's state and refs are fields: `transcript`,
  `manualInput`, `useFallback`, `recognitionActive`, the edge ref
  `prevRecording` and whether a recogniser instance exists. Three snapshot
  fields hold the values that the recogniser's handlers closed over when the
  install effect attached them: `snapTranscript`, `snapRecording` and
  `snapFallback`.
- **Effect runs.** A run of React's three effects after a render is
  `CommitStep`:
  - the recording-edge effect runs after every render;
  - the recogniser-install effect runs when `[isRecording, useFallback]`
    changed since its last run;
  - the device effect runs when `[isRecording, useFallback, recognitionActive]`
    changed since its last run.

  All three effects read the render's values.
- **Outside calls.**
  - Calls into the speech engine are logged in `engineCalls`.
  - Media recorders are logged in `recorders`.
  - Outstanding permission queries and microphone requests are in `pending`.
    Each entry carries the `recognitionActive` its closure saw.
  - Calls of `onTranscriptUpdate` are logged in `notified`.
- **Events.** Browser callbacks and user actions are events. Each event's
  outcome (whether a call throws, what the permission query answers) is a
  parameter of the event.

## Model

| member | source | states |
|---|---|---|
| Text.Trim | frontend/src/components/AudioRecorder.js:216-217 | `trim()` cuts white space at the two ends and nothing else: the result occurs in the input with only white space before and after it; it is empty exactly for blank text, and otherwise neither starts nor ends with white space |
| Text.JoinSplitOn | frontend/src/components/ResultDisplay.js:28 | splitting on a character and joining with it gives the text back |
| Text.ContainsIffOccurs | frontend/src/components/ResultDisplay.js:10 | `includes` holds exactly when the pattern occurs at some index |
| Text.DecimalOfNatToString | express-backend/add_reference_image.js:51 | a number printed in decimal reads back as the same number |
| Text.DigitRunOfPrefix | express-backend/add_reference_image.js:28 | the digit run at the start of digits followed by a non-digit is exactly those digits |
| AddReferenceImage.Validate | express-backend/add_reference_image.js:21-51 | the checks run in the order argument count, id, source existence, extension; each error happens exactly when the earlier checks pass and its own fails; success exactly when all four pass |
| AddReferenceImage.TargetNameDecodes | express-backend/add_reference_image.js:44-51 | the target name is `person`, then the single digit of the parsed id, then the lower-cased extension, which is one of `.jpg`, `.jpeg`, `.png` |
| AddReferenceImage.ParseInt | express-backend/add_reference_image.js:28 | `parseInt(s, 10)` as a definition: skip leading white space, read an optional sign, then the longest run of digits; no digit is NaN (`None`); its behaviour on every input is stated by the next two rows |
| AddReferenceImage.ParseIntOfSignedDigits | express-backend/add_reference_image.js:28 | for every input made of white space, an optional `-` or `+`, one or more digits, and a rest that does not start with a digit, the result is the digits' decimal value, negated after `-` |
| AddReferenceImage.ParseIntWithoutDigits | express-backend/add_reference_image.js:28 | when no digit follows the white space and the optional sign, the result is NaN |
| AddReferenceImage.ParseIntOfPrintedNumber | express-backend/add_reference_image.js:28 | `parseInt` of a printed number followed by a non-digit gives back that number |
| AddReferenceImage.TrailingJunkIgnored | express-backend/add_reference_image.js:28-35 | `"2x"` parses as 2 and `"abc"` as NaN |
| AddReferenceImage.Extname | express-backend/add_reference_image.js:44 | the extension is empty, or it starts with the one dot it contains and has no separator |
| AddReferenceImage.ExtnameIsSuffix | express-backend/add_reference_image.js:44 | the extension is a tail of the path once trailing separators are dropped |
| AddReferenceImage.ExtnameOfName | express-backend/add_reference_image.js:44 | a path whose last segment is `stem.x`, with a non-empty stem and a non-empty, dot-free, separator-free `x`, has the extension `.x` |
| AddReferenceImage.LowerEqualsIff | express-backend/add_reference_image.js:44 | lower-casing gives a lower-case word exactly when the text equals that word up to the case of each ASCII letter |
| AddReferenceImage.ExtensionAcceptedIgnoringCase | express-backend/add_reference_image.js:44-45 | the lower-cased extension is accepted exactly when the extension is `.jpg`, `.jpeg` or `.png` in any mix of letter cases |
| AddReferenceImage.UpperCaseJpgAccepted | express-backend/add_reference_image.js:44-45 | `photos/face.JPG` has the extension `.JPG`, and it is accepted |
| Server.RejectEmpty | express-backend/server.js:53-58 | a 400 with the fixed error exactly when neither `text` nor `image` is truthy |
| Server.Prompt | express-backend/server.js:61-63 | the fixed instruction, followed by the text when truthy and by `No text provided` otherwise |
| Server.ParseDataUrl | express-backend/server.js:70-71 | a match has letters-only type and line-break-free data, and renders back to the input |
| Server.ParseRender | express-backend/server.js:70-73 | every well-formed type/data pair is matched back from its data URL |
| Server.ParseDataUrlExactly | express-backend/server.js:70-73 | the pattern matches a string exactly when it is the rendering of a well-formed pair, and then yields that pair |
| Server.AttachedImage | express-backend/server.js:66-95 | an image is kept only if it is present, its save did not throw, and it fully matches the pattern |
| Server.MalformedImageDropped | express-backend/server.js:66-95 | an image that matches no well-formed pair is dropped, and the content is the text part alone |
| Server.WellFormedImageAttached | express-backend/server.js:83-90 | a well-formed data URL adds a part with media type `image/<letters>` and the data after the comma |
| Server.MessageContent | express-backend/server.js:60-95 | the message content as a definition: the prompt part, then an image part exactly when `AttachedImage` keeps the image; stated by `MalformedImageDropped` and `WellFormedImageAttached` |
| Server.BuildContent | express-backend/server.js:61-95 | the content is the text part, then at most the image part |
| Server.Sanitize | express-backend/server.js:35 | every `:` and `.` becomes `-`, everything else is kept, and the length is unchanged |
| Server.NatToStringLength | express-backend/server.js:36-37 | a number below 10^k prints with at most k digits |
| Server.GenerateUniqueFilename | express-backend/server.js:34-38 | the name is the sanitised stamp, `-`, a number of 1 to 4 digits, `.`, then the extension; the stem has no dot or colon |
| Server.Process | express-backend/server.js:41-134 | 400 without a model call exactly when both fields are falsy; otherwise the model gets the built content; 200 with the answer and the summary file name exactly when the model answered and the write worked; any other outcome is 500 with the thrown message |
| ResultDisplay.ScanNumberedIff | frontend/src/components/ResultDisplay.js:15 | the `m`-flag scan succeeds exactly when some line starts with a marker |
| ResultDisplay.SplitNumbered | frontend/src/components/ResultDisplay.js:16 | `split(/\n(?=\d+\.\s)/)` as a definition; like every `split`, it gives at least one item |
| ResultDisplay.JoinSplitNumbered | frontend/src/components/ResultDisplay.js:16 | joining the numbered items with line feeds gives the text back |
| ResultDisplay.SplitNumberedCutsAtMarkers | frontend/src/components/ResultDisplay.js:16 | the text from each item after the first onwards starts with a marker: every cut is at a line feed followed by a marker |
| ResultDisplay.SplitNumberedCutsExactlyAtMarkers | frontend/src/components/ResultDisplay.js:16 | a position holds a line feed followed by a marker exactly when it is the separator in front of some item after the first |
| ResultDisplay.SplitNumberedItemsHoldNoCut | frontend/src/components/ResultDisplay.js:16 | no item contains a line feed that a marker follows |
| ResultDisplay.Clean | frontend/src/components/ResultDisplay.js:21 | the cleaned item is a tail of the item; it differs from it exactly when the item starts with a marker, and then exactly the marker is cut |
| ResultDisplay.NonBlank | frontend/src/components/ResultDisplay.js:28 | no kept line is blank |
| ResultDisplay.NonBlankKeepsOrderAndLines | frontend/src/components/ResultDisplay.js:28-33 | the kept lines are a subsequence of the lines, untrimmed; every non-blank line is kept, each as often as it occurs, and no blank line is |
| ResultDisplay.FormatNumericInfo | frontend/src/components/ResultDisplay.js:6-37 | nothing for missing or empty text; the note exactly when the fixed phrase occurs; a numbered list exactly when the phrase is absent and some line starts with a marker, with one cleaned entry per item in order; otherwise the non-blank lines |
| ResultDisplay.Display | frontend/src/components/ResultDisplay.js:39-58 | a failure shows the error text; a success shows the formatted summary and the file name |
| VideoCapture.IsImageBlank | frontend/src/components/VideoCapture.js:15-58 | an image that fails to load is blank; otherwise the loop's verdict is `Blank` of the pixels, with a count over every sixteenth byte below the length |
| VideoCapture.NonBlackCount | frontend/src/components/VideoCapture.js:30-43 | the loop's count as a definition: the samples at 0, 16, 32, ... below the length whose red, green or blue exceeds 10; bounded by `NonBlackCountBound` |
| VideoCapture.BlankVerdict | frontend/src/components/VideoCapture.js:45-46 | the 5% threshold as a definition: a non-empty buffer with `320 * nonBlack < len`; tied to the source's division by `ThresholdIsRational` |
| VideoCapture.ThresholdIsRational | frontend/src/components/VideoCapture.js:31-46 | `nonBlack / (len / 4 / 4) < 0.05` over the reals is `320 * nonBlack < len` |
| VideoCapture.NonBlackFromBound | frontend/src/components/VideoCapture.js:34-43 | the count from an index is at most the number of samples from it |
| VideoCapture.NonBlackCountBound | frontend/src/components/VideoCapture.js:34-43 | the count never exceeds ceil(len / 16) |
| VideoCapture.OnlySampledBytesMatter | frontend/src/components/VideoCapture.js:34-42 | only red, green and blue of the sampled pixels are read; alpha and unsampled bytes never change the count |
| VideoCapture.BrightFrameNotBlank | frontend/src/components/VideoCapture.js:40-46 | a frame whose every sample has red above 10 is not blank |
| VideoCapture.DarkFrameBlank | frontend/src/components/VideoCapture.js:40-46 | a non-empty frame with every byte at most 10 is blank |
| VideoCapture.Camera.constructor | frontend/src/components/VideoCapture.js:5-12 | the panel starts inactive, not ready, error-free, with no image and no stream |
| VideoCapture.Camera.SetActive | frontend/src/components/VideoCapture.js:4 | only the prop changes |
| VideoCapture.Camera.CaptureImage | frontend/src/components/VideoCapture.js:61-123 | success exactly when a video element exists, the camera is ready, both dimensions are positive, a frame was drawn and it is not blank; a failure changes nothing; a success stores the frame, marks it valid and hands it to the parent once |
| VideoCapture.Camera.ResendEffect | frontend/src/components/VideoCapture.js:153-158 | inactive with a stored image hands that image to the parent again; otherwise nothing is handed over |
| VideoCapture.Camera.CameraEffect | frontend/src/components/VideoCapture.js:161-243 | active and error-free: the valid mark survives only with a stored image, and the camera is requested unless ready with a stream; inactive with a stream: every track is stopped, the stream dropped, not ready |
| VideoCapture.Camera.StreamGranted | frontend/src/components/VideoCapture.js:181-183 | the request settles with a fresh stream whose tracks are live |
| VideoCapture.Camera.StreamFailed | frontend/src/components/VideoCapture.js:219-223 | a refused request puts the camera in error |
| VideoCapture.Camera.VideoReady | frontend/src/components/VideoCapture.js:194-202 | playback started and the settling delay passed: the camera is ready |
| VideoCapture.Camera.VideoFailed | frontend/src/components/VideoCapture.js:204-216 | a playback or element error puts the camera in error |
| App.PayloadText | frontend/src/App.js:72-81 | the posted text is the fixed default exactly when the session text is blank, otherwise the untrimmed session text; it is never blank |
| App.PostedTextAccepted | frontend/src/App.js:114-118 | the server never refuses the posted text as empty, and its prompt ends with that text |
| App.RecordingFollowsLastUpdate | frontend/src/App.js:182-195 | while recording, the session text is the last report, the empty reset included |
| App.IdleKeepsLastNonEmpty | frontend/src/App.js:186-194 | while not recording, empty reports are ignored: the text is the last non-empty report, or unchanged if there is none |
| App.AfterUpdatesSnoc | frontend/src/App.js:182-195 | one more report is one more application of the rule |
| App.NextAudioText | frontend/src/App.js:182-195 | `handleTranscriptUpdate` as a definition: an empty report while recording resets the text, a non-empty report replaces it, an empty one otherwise is ignored; stated by `Host.TranscriptUpdate` |
| App.AfterUpdates | frontend/src/App.js:182-195 | a series of reports applied in order as a definition; stated by `RecordingFollowsLastUpdate`, `IdleKeepsLastNonEmpty` and `AfterUpdatesSnoc` |
| App.ErrorText | frontend/src/App.js:165 | the server's `error` field when it is truthy, otherwise the generic message |
| App.StatusOf | frontend/src/App.js:173 | a network error exactly when there is no response or its status is 0, otherwise the response status |
| App.Host.constructor | frontend/src/App.js:16-26 | the page starts idle, with an empty debug record |
| App.Host.StartStream | frontend/src/App.js:40-52 | recording; text, image, result, error and the debug record cleared; processing untouched; End Stream is now the enabled button (buttons at lines 213 and 220) |
| App.Host.BeginEndStream | frontend/src/App.js:54-81 | recording stops and processing starts; the debug record keeps the session text (never the default) with no image; the payload is posted; both buttons are disabled while the post is in flight |
| App.Host.CompleteEndStream | frontend/src/App.js:86-178 | processing ends on every path, and Start Stream is enabled again; an answer is logged after the earlier entries and shown; a failure shows the server's or a fixed error and is logged only on the session-text path |
| App.Host.TranscriptUpdate | frontend/src/App.js:182-195 | the three-way transcript rule, with nothing else changed |
| App.Host.ImageCapture | frontend/src/App.js:198-201 | the frame is stored, nothing else changes |
| App.Session | frontend/src/App.js:40-179 | after a start, reports and an end, the posted text is the payload of the last report and the debug log holds at most one entry, exactly one after an answer |
| AudioRecorder.Initial | frontend/src/components/AudioRecorder.js:5-11 | the initial state as a definition: not recording, empty texts, no fallback, no instance, nothing pending or reported |
| AudioRecorder.FinalText | frontend/src/components/AudioRecorder.js:92-100 | the batch as a definition: the final entries' texts from `resultIndex` on, in order; stated by `FinalTextSnoc`, `InterimTextIgnored` and `EarlierResultsIgnored` |
| AudioRecorder.CollectFinal | frontend/src/components/AudioRecorder.js:92-100 | the loop builds the concatenation of the final entries' texts from `resultIndex` on |
| AudioRecorder.FinalTextSnoc | frontend/src/components/AudioRecorder.js:94-100 | a result added at the end is appended after the others, and only if final |
| AudioRecorder.InterimTextIgnored | frontend/src/components/AudioRecorder.js:97-99 | the text of a non-final entry never reaches the batch |
| AudioRecorder.EarlierResultsIgnored | frontend/src/components/AudioRecorder.js:94 | entries before `resultIndex` never reach the batch |
| AudioRecorder.EdgeEffect | frontend/src/components/AudioRecorder.js:14-30 | the recording-edge effect as a definition; stated by `RisingEdge`, `FallingEdge` and `CommitSyncsEdgeRef` |
| AudioRecorder.InstallCleanup | frontend/src/components/AudioRecorder.js:129-137 | the install effect's cleanup as a definition: stop the current instance, if any |
| AudioRecorder.InstallBody | frontend/src/components/AudioRecorder.js:33-127 | the install effect's body as a definition: with a recogniser, stop the old instance, test-start a new one and attach handlers that see the render; without one, switch to manual input; stated by `CommitFallbackCauses` and `NewSessionSnapshotsOldTranscript` |
| AudioRecorder.InstallEffect | frontend/src/components/AudioRecorder.js:33-137 | the previous run's cleanup, then the body |
| AudioRecorder.DeviceEffect | frontend/src/components/AudioRecorder.js:141-209 | the device effect as a definition: recording with speech asks for the microphone, through the permission query when there is one; otherwise the last media recorder is stopped, and the engine too if the render saw it active |
| AudioRecorder.CommitStep | frontend/src/components/AudioRecorder.js:14-209 | one commit as a definition: edge, install and device effects in that order, each reading the render; stated by `RisingEdge`, `FallingEdge`, `CommitSyncsEdgeRef`, `CommitFallbackCauses` and `CommitReports` |
| AudioRecorder.ResultStep | frontend/src/components/AudioRecorder.js:102-116 | `onresult` as written, as a definition; stated by `ResultRule`, `ResultReports` and `StaleSnapshotDropsBatch` |
| AudioRecorder.SubmitStep | frontend/src/components/AudioRecorder.js:215-222 | `handleManualInputSubmit` as a definition; stated by `SubmitRule` and `SubmitReports` |
| AudioRecorder.TimerStep | frontend/src/components/AudioRecorder.js:57-62 | the test-stop timer as a definition: stop the current instance |
| AudioRecorder.EndStep | frontend/src/components/AudioRecorder.js:73-86 | `onend` as a definition; stated by `EndRule` |
| AudioRecorder.ErrorStep | frontend/src/components/AudioRecorder.js:118-123 | `onerror` as a definition; stated by `ErrorRule` |
| AudioRecorder.PermissionStep | frontend/src/components/AudioRecorder.js:148-163 | the permission answer as a definition; stated by `DeviceFallbackCauses` |
| AudioRecorder.AcquiredStep | frontend/src/components/AudioRecorder.js:186-201 | a granted microphone as a definition; stated by `DeviceFallbackCauses` |
| AudioRecorder.RejectedStep | frontend/src/components/AudioRecorder.js:202-207 | a refused microphone as a definition; stated by `DeviceFallbackCauses` |
| AudioRecorder.KeyStep | frontend/src/components/AudioRecorder.js:224-228 | Enter submits, any other key changes nothing |
| AudioRecorder.TryStartStep | frontend/src/components/AudioRecorder.js:244-258 | "Try Start Recognition" starts the current instance, if any |
| AudioRecorder.SwitchStep | frontend/src/components/AudioRecorder.js:260-272 | "Switch to Manual Input" as a definition; stated by `DeviceFallbackCauses` |
| AudioRecorder.Enabled | frontend/src/components/AudioRecorder.js:14-302 | which events can happen in a state: engine callbacks once an instance exists, each pending call settling once, each control only where it is rendered |
| AudioRecorder.Step | frontend/src/components/AudioRecorder.js:14-302 | one event as a definition, dispatching to the step functions above; stated by `FallbackOnlyFromCauses`, `FallbackClearedOnlyByToggle` and `StepReports` |
| AudioRecorder.Run | frontend/src/components/AudioRecorder.js:14-302 | a sequence of events as a definition; stated by `RunReports` |
| AudioRecorder.RisingEdge | frontend/src/components/AudioRecorder.js:14-21 | when recording starts, transcript and manual input become empty and `''` is reported once |
| AudioRecorder.FallingEdge | frontend/src/components/AudioRecorder.js:22-26 | when recording stops, the render's transcript is reported once |
| AudioRecorder.CommitSyncsEdgeRef | frontend/src/components/AudioRecorder.js:14-30 | without an edge nothing is reported; the edge ref always ends equal to the prop |
| AudioRecorder.ResultRule | frontend/src/components/AudioRecorder.js:102-116 | a non-empty batch while the handlers' render was recording sets the transcript to the snapshot, a space and the batch, and reports it; anything else changes nothing |
| AudioRecorder.ErrorRule | frontend/src/components/AudioRecorder.js:118-123 | only `no-speech`, `audio-capture` and `not-allowed` switch to manual input; other codes change nothing |
| AudioRecorder.EndRule | frontend/src/components/AudioRecorder.js:73-86 | `onend` marks the engine inactive and restarts it exactly when the handlers' render was recording and not in fallback; a throwing restart changes nothing else |
| AudioRecorder.SubmitRule | frontend/src/components/AudioRecorder.js:215-228 | a blank submission changes nothing; otherwise the transcript gains a space and the trimmed input, that value is reported, and the input is cleared |
| AudioRecorder.CommitFallbackCauses | frontend/src/components/AudioRecorder.js:54-66 | an install run switches to manual input without a recogniser, or when the test start throws |
| AudioRecorder.DeviceFallbackCauses | frontend/src/components/AudioRecorder.js:146-207 | a denied permission (dropping the query, no recorder made), a refused microphone, a throwing start after it, and the "Switch to Manual Input" button each switch to manual input |
| AudioRecorder.FallbackOnlyFromCauses | frontend/src/components/AudioRecorder.js:63-66 | nothing else switches to manual input, except the idle toggle |
| AudioRecorder.FallbackClearedOnlyByToggle | frontend/src/components/AudioRecorder.js:302 | once on, manual input is switched off only by the idle-screen toggle |
| AudioRecorder.SpacedAppend | frontend/src/components/AudioRecorder.js:106 | a transcript extended by a space and a piece starts with a space |
| AudioRecorder.CommitReports | frontend/src/components/AudioRecorder.js:14-30 | a commit keeps every held and reported transcript space-joined, and adds at most one report |
| AudioRecorder.ResultReports | frontend/src/components/AudioRecorder.js:102-116 | a result batch keeps the transcripts space-joined and adds at most one report |
| AudioRecorder.SubmitReports | frontend/src/components/AudioRecorder.js:215-222 | a submission keeps the transcripts space-joined and adds at most one report |
| AudioRecorder.StepReports | frontend/src/components/AudioRecorder.js:14-302 | any single event keeps the transcripts space-joined and only appends, at most one report at a time |
| AudioRecorder.RunReports | frontend/src/components/AudioRecorder.js:14-302 | over any run, earlier reports are never changed or withdrawn, there is at most one new report per event, and every report is empty or starts with a space |
| AudioRecorder.InitialReportsSpaced | frontend/src/components/AudioRecorder.js:5-11 | the initial state has reported nothing and is space-joined |
| AudioRecorder.StaleSnapshotDropsBatch | frontend/src/components/AudioRecorder.js:102-109 | as written, the second batch of a recording replaces the first instead of extending it |
| AudioRecorder.NewSessionSnapshotsOldTranscript | frontend/src/components/AudioRecorder.js:33-138 | as written, the handlers of a new recording see the previous session's transcript |
| AudioRecorder.LiveResultStep | frontend/src/components/AudioRecorder.js:102-116 | corrected handler: a non-empty batch while recording extends the live transcript and reports it; otherwise nothing changes |
| AudioRecorder.LiveBatchesAccumulate | frontend/src/components/AudioRecorder.js:102-116 | with the correction, a recording keeps every batch, in order |
| AudioRecorder.LiveResultAfterRisingEdge | frontend/src/components/AudioRecorder.js:14-21 | with the correction, the first batch of a recording is not prefixed by old text |
| AudioRecorder.Recorder.constructor | frontend/src/components/AudioRecorder.js:5-11 | the component starts not recording, with empty text, no fallback and no instance |
| AudioRecorder.Recorder.SetRecording | frontend/src/components/AudioRecorder.js:4 | the parent's prop changes and nothing else does |
| AudioRecorder.Recorder.RunEdgeEffect | frontend/src/components/AudioRecorder.js:14-30 | the edge effect writes transcript, manual input, reports and the ref as `EdgeEffect` says: a rising edge clears and reports `''`, a falling edge reports the transcript |
| AudioRecorder.Recorder.RunInstallCleanup | frontend/src/components/AudioRecorder.js:129-137 | the previous run's cleanup stops the instance, if any |
| AudioRecorder.Recorder.CreateInstance | frontend/src/components/AudioRecorder.js:38-51 | a previous instance is stopped, and an instance now exists |
| AudioRecorder.Recorder.RunTestStart | frontend/src/components/AudioRecorder.js:53-66 | the test start is called; it switches to manual input if it throws, and otherwise arms the stop timer |
| AudioRecorder.Recorder.RunAttachHandlers | frontend/src/components/AudioRecorder.js:68-123 | the handlers see the render's transcript, recording flag and fallback flag |
| AudioRecorder.Recorder.RunInstallBody | frontend/src/components/AudioRecorder.js:33-127 | the install body ends as `InstallBody` says, field by field: a new instance, a test start and handlers with a recogniser; manual input without one |
| AudioRecorder.Recorder.RunDeviceEffect | frontend/src/components/AudioRecorder.js:141-209 | recording without fallback asks for permission or the microphone; otherwise the live recorder, if any, is stopped, and so is the engine if it was active |
| AudioRecorder.Recorder.TestStopTimer | frontend/src/components/AudioRecorder.js:57-62 | the timer stops the current instance |
| AudioRecorder.Recorder.OnStart | frontend/src/components/AudioRecorder.js:68-71 | the engine is active |
| AudioRecorder.Recorder.OnEnd | frontend/src/components/AudioRecorder.js:73-86 | the engine is inactive, and it is restarted as `EndStep` says |
| AudioRecorder.Recorder.OnResult | frontend/src/components/AudioRecorder.js:88-116 | transcript and reports end as `ResultStep` says, with the batch computed by the loop |
| AudioRecorder.Recorder.OnError | frontend/src/components/AudioRecorder.js:118-123 | the fallback flag ends as `ErrorStep` says |
| AudioRecorder.Recorder.OnPermission | frontend/src/components/AudioRecorder.js:148-163 | a denial drops the query and switches to manual input; any other answer or a failed query turns it into a microphone request |
| AudioRecorder.Recorder.OnMicrophone | frontend/src/components/AudioRecorder.js:186-201 | a granted microphone adds a live recorder and starts the engine unless the closure saw it active; a throwing start switches to manual input |
| AudioRecorder.Recorder.OnMicrophoneRejected | frontend/src/components/AudioRecorder.js:202-207 | a refused microphone switches to manual input |
| AudioRecorder.Recorder.ManualInputChange | frontend/src/components/AudioRecorder.js:211-213 | the input holds the typed value |
| AudioRecorder.Recorder.ManualInputSubmit | frontend/src/components/AudioRecorder.js:215-222 | transcript, reports and input end as `SubmitStep` says |
| AudioRecorder.Recorder.HandleKeyPress | frontend/src/components/AudioRecorder.js:224-228 | Enter submits, any other key changes nothing |
| AudioRecorder.Recorder.TryStartRecognition | frontend/src/components/AudioRecorder.js:244-258 | the button starts the current instance, if any |
| AudioRecorder.Recorder.SwitchToManual | frontend/src/components/AudioRecorder.js:260-272 | the button stops the current instance, if any, and switches to manual input |
| AudioRecorder.Recorder.ToggleInputMode | frontend/src/components/AudioRecorder.js:302 | the idle-screen button flips the input mode |

## Left out

- Browser APIs are not modelled as code: the speech recogniser, the permissions API, `getUserMedia`, `MediaRecorder`, canvas drawing, image decoding and `toDataURL`. Their outcomes are event parameters, for example whether a start throws, how the permission query answers, or the decoded pixels.
- Timers are events with no clock: the 500 ms test stop, the one-second camera settling delay, the capture wait for `readyState`, and the status-message reset.
- Restarts are unbounded: the code restarts the engine on every `onend` while recording and out of fallback, with no delay and no limit, and it switches to manual input on the three error codes; the model does the same.
- React's scheduling is not modelled. `CommitStep` fixes the order of the three effects after a render: edge, then install, then device. React runs them, so `Recorder` has one method per effect and no method for the whole commit. Which events may follow which (`Enabled`) is stated on the step functions only.
- Callbacks from a recogniser instance that has already been replaced are not modelled. Neither are the effects' cleanups at unmount.
- The recorders' audio streams and tracks are not modelled. `recorders` keeps one live flag per recorder. As in the source, the device effect stops only the most recent recorder.
- The camera status strings, the manual capture and retry buttons, and the canvas size fallback (`|| 640`, `|| 480`) are not modelled. The cleanup function that stops tracks again after a deactivating run is not modelled either. The model does not track which `getUserMedia` answer belongs to which effect run.
- VideoCapture.ThresholdIsRational: compares over exact reals. Double rounding in `nonBlack / (len / 16)` is not modelled.
- JSON fields that are not strings (`text: 5`) are not modelled. Absent and `null` fields are both `None`.
- The language-model call, the file writes, `process.exit` and console logging are not modelled. The model's reply, whether each write worked, the clock and the random number are inputs.
- The image file name in the route is not modelled beyond the fact that a failed save drops the image.
- The 30-second axios timeout is not a separate outcome. A post that times out is one more `Failed` outcome.
- Timestamps of the debug log entries are parameters.
- AddReferenceImage.LowerExtension: lower-cases ASCII letters only. `toLowerCase` maps other letters too, but none of them lower-cases into `.jpg`, `.jpeg` or `.png`.
- AddReferenceImage.Extname: follows Node's POSIX `path.extname`. Windows separators are not modelled.
- The copy of the file to `reference_faces/` and the directory creation are not modelled. Whether the source exists is an input.
- express-backend/patient_database.js is not part of this model. It holds a data literal with no code.
- JSX markup and CSS are not modelled.

## Findings

| source | as written | input that shows it | evidently intended | confidence | as-written member | corrected member |
|---|---|---|---|---|---|---|
| frontend/src/components/AudioRecorder.js:105-108 | `onresult` builds the new transcript from the `transcript` its closure captured when the install effect ran, and the effect does not re-run when `transcript` changes | two final batches `a`, `b` in one recording with no effect re-run between them: the transcript is snapshot + " " + `b`, and `a` is lost | each batch extends the live transcript: snapshot + " " + `a` + " " + `b` | high, not executed | AudioRecorder.StaleSnapshotDropsBatch | AudioRecorder.LiveBatchesAccumulate |
| frontend/src/components/AudioRecorder.js:14-21, 33-138 | the install effect runs in the same commit as the reset, so its handlers capture the transcript of the previous session | a second recording after one that ended with transcript " old": its first batch `x` gives " old x" | a new recording starts from the empty transcript: " x" | high, not executed | AudioRecorder.NewSessionSnapshotsOldTranscript | AudioRecorder.LiveResultAfterRisingEdge |
