/**
 * The speech-capture session controller (frontend AudioRecorder.js).
 *
 * The component's state and refs are a `RecorderState`; every browser
 * callback, user action and effect run is an `Event`, and `Step` gives the
 * next state. The class `Recorder` holds the same state in fields and has one
 * method per handler and per effect; each names the fields it may write and
 * proves that every one of them ends as the matching step function says.
 * React itself runs the three effects after a render; `CommitStep` fixes
 * their order, and there is no method for it.
 *
 * React's effects are modelled by the `Commit` event: after a render, the
 * recording-edge effect runs every time, the recogniser-install effect when
 * `[isRecording, useFallback]` differ from its last run, and the device
 * effect when `[isRecording, useFallback, recognitionActive]` do. Effects
 * read the values of the render (the state before the commit). The
 * recogniser's handlers are closures made by the install effect: they see
 * the `transcript`, `isRecording` and `useFallback` of that render, kept
 * here as the snapshot fields.
 *
 * Calls into the speech engine are recorded in `engineCalls` (every call
 * made, whether or not it threw), the media recorders ever created in
 * `recorders` (live or stopped; the last is `mediaRecorderRef.current`), and
 * the calls of `onTranscriptUpdate` in `notified`.
 */
module AudioRecorder {
  import opened Wrappers
  import opened Text

  /** What the browser offers: `webkitSpeechRecognition`, and `navigator.permissions.query`. */
  datatype Platform = Platform(hasRecognizer: bool, hasPermissionsApi: bool)

  /** A call made on the current recogniser instance. */
  datatype EngineCall = Start | Stop

  /**
   * An outstanding promise of the device effect, with the `recognitionActive`
   * its closure saw: a permission query, or a microphone request.
   */
  datatype PendingCall = PermissionQuery(recognitionActive: bool) | MicrophoneRequest(recognitionActive: bool)

  /** How the permission query settles: one of the three states, or a rejected promise. */
  datatype PermissionAnswer = Granted | Prompt | Denied | QueryRejected

  /** One entry of `event.results`: whether it is final, and the text of its first alternative. */
  datatype SpeechResult = SpeechResult(isFinal: bool, text: string)

  datatype RecorderState = RecorderState(
    platform: Platform,
    isRecording: bool,                      // the prop
    prevRecording: bool,                    // prevRecordingStateRef
    transcript: string,
    manualInput: string,
    useFallback: bool,
    recognitionActive: bool,
    hasInstance: bool,                      // recognitionRef.current is set
    testTimers: nat,                        // pending 500 ms test-stop timers
    snapTranscript: string,                 // what the recogniser handlers closed over
    snapRecording: bool,
    snapFallback: bool,
    installDeps: Option<(bool, bool)>,      // deps of the install effect's last run
    deviceDeps: Option<(bool, bool, bool)>, // deps of the device effect's last run
    pending: seq<PendingCall>,
    recorders: seq<bool>,                   // live flag of each media recorder made
    engineCalls: seq<EngineCall>,
    notified: seq<string>)                  // arguments of onTranscriptUpdate, in order

  datatype Event =
    | PropChange(recording: bool)                          // the parent re-renders with `isRecording`
    | Commit(testStartThrows: bool)                        // effects after a render
    | TestStopTimer                                        // the 500 ms timer of the test start
    | EngineStarted                                        // onstart
    | EngineEnded(restartThrows: bool)                     // onend
    | EngineResult(results: seq<SpeechResult>, resultIndex: nat) // onresult
    | EngineError(code: string)                            // onerror
    | PermissionAnswered(k: nat, answer: PermissionAnswer) // pending call k settles
    | DeviceAcquired(k: nat, startThrows: bool)
    | DeviceRejected(k: nat)
    | ManualInputChanged(value: string)
    | ManualSubmit                                         // the Add button
    | KeyPress(key: string)
    | TryStartClicked
    | SwitchToManualClicked
    | IdleToggleClicked

  /** The component as first mounted. */
  function Initial(platform: Platform): RecorderState {
    RecorderState(platform, false, false, "", "", false, false, false, 0, "", false, false,
                  None, None, [], [], [], [])
  }

  /**
   * When an event can happen: the engine calls back only once an instance
   * exists, a pending call settles only once, and each control is on screen
   * only in the states the component renders it in.
   */
  predicate Enabled(s: RecorderState, e: Event) {
    match e
    case PropChange(_) => true
    case Commit(_) => true
    case TestStopTimer => s.testTimers > 0
    case EngineStarted => s.hasInstance
    case EngineEnded(_) => s.hasInstance
    case EngineResult(_, _) => s.hasInstance
    case EngineError(_) => s.hasInstance
    case PermissionAnswered(k, _) => k < |s.pending| && s.pending[k].PermissionQuery?
    case DeviceAcquired(k, _) => k < |s.pending| && s.pending[k].MicrophoneRequest?
    case DeviceRejected(k) => k < |s.pending| && s.pending[k].MicrophoneRequest?
    case ManualInputChanged(_) => s.isRecording && s.useFallback
    case ManualSubmit => s.isRecording && s.useFallback
    case KeyPress(_) => s.isRecording && s.useFallback
    case TryStartClicked => s.isRecording && !s.useFallback && !s.recognitionActive
    case SwitchToManualClicked => s.isRecording
    case IdleToggleClicked => !s.isRecording
  }

  /** The error codes that switch to manual input. */
  predicate FallbackCode(code: string) {
    code == "no-speech" || code == "audio-capture" || code == "not-allowed"
  }

  /** `s` with entry `k` removed. */
  function RemoveAt<T>(s: seq<T>, k: nat): (r: seq<T>)
    requires k < |s|
    ensures |r| == |s| - 1
  {
    s[..k] + s[k + 1..]
  }

  /** The text of one result batch: the final entries' texts from `i` on, in order, with no separator. */
  function FinalText(results: seq<SpeechResult>, i: nat): string
    decreases |results| - i
  {
    if i >= |results| then ""
    else (if results[i].isFinal then results[i].text else "") + FinalText(results, i + 1)
  }

  /** The `onresult` loop: walk the results from `resultIndex`, appending the final ones. */
  method CollectFinal(results: seq<SpeechResult>, resultIndex: nat) returns (batch: string)
    ensures batch == FinalText(results, resultIndex)
  {
    batch := "";
    var i := resultIndex;
    while i < |results|
      invariant resultIndex <= i
      invariant batch + FinalText(results, i) == FinalText(results, resultIndex)
      decreases |results| - i
    {
      if results[i].isFinal {
        batch := batch + results[i].text;
      }
      i := i + 1;
    }
  }

  /** A result that arrives later is appended after the earlier ones. */
  lemma {:induction false} FinalTextSnoc(results: seq<SpeechResult>, r: SpeechResult, i: nat)
    requires i <= |results|
    ensures FinalText(results + [r], i) == FinalText(results, i) + (if r.isFinal then r.text else "")
    decreases |results| - i
  {
    if i < |results| {
      FinalTextSnoc(results, r, i + 1);
      assert (results + [r])[i] == results[i];
    } else {
      assert FinalText(results + [r], i + 1) == "";
    }
  }

  /** The text of a non-final entry never reaches the batch. */
  lemma {:induction false} InterimTextIgnored(results: seq<SpeechResult>, j: nat, text: string, i: nat)
    requires j < |results| && !results[j].isFinal
    ensures FinalText(results[j := SpeechResult(false, text)], i) == FinalText(results, i)
    decreases |results| - i
  {
    if i < |results| {
      var changed := results[j := SpeechResult(false, text)];
      InterimTextIgnored(results, j, text, i + 1);
      assert changed[i].isFinal == results[i].isFinal;
      assert changed[i].isFinal ==> changed[i].text == results[i].text;
    }
  }

  /** Entries before `resultIndex` never reach the batch. */
  lemma {:induction false} EarlierResultsIgnored(earlier: seq<SpeechResult>, results: seq<SpeechResult>, i: nat)
    ensures FinalText(earlier + results, |earlier| + i) == FinalText(results, i)
    decreases |results| - i
  {
    if i < |results| {
      assert (earlier + results)[|earlier| + i] == results[i];
      EarlierResultsIgnored(earlier, results, i + 1);
    }
  }

  /** The recording-edge effect, reading and writing `s`. */
  function EdgeEffect(s: RecorderState): RecorderState {
    var rising := s.isRecording && !s.prevRecording;
    var falling := !s.isRecording && s.prevRecording;
    s.(transcript := if rising then "" else s.transcript,
       manualInput := if rising then "" else s.manualInput,
       notified := if rising then s.notified + [""] else if falling then s.notified + [s.transcript] else s.notified,
       prevRecording := s.isRecording)
  }

  /** The install effect's dependencies changed since its last run. */
  predicate InstallDue(render: RecorderState) {
    render.installDeps != Some((render.isRecording, render.useFallback))
  }

  /** The device effect's dependencies changed since its last run. */
  predicate DeviceDue(render: RecorderState) {
    render.deviceDeps != Some((render.isRecording, render.useFallback, render.recognitionActive))
  }

  /** The cleanup of the install effect's previous run, when `due`: stop the current instance. */
  function InstallCleanup(cur: RecorderState, due: bool): RecorderState {
    cur.(engineCalls := if due && cur.hasInstance then cur.engineCalls + [Stop] else cur.engineCalls)
  }

  /**
   * The body of the install effect when `due`: with a recogniser, stop the old
   * instance, make a new one, test-start it, and attach handlers that see
   * `render`; without one, switch to manual input. When not `due`, nothing changes.
   */
  function InstallBody(cur: RecorderState, render: RecorderState, testStartThrows: bool, due: bool): RecorderState {
    var installs := due && cur.platform.hasRecognizer;
    var replaced := if installs && cur.hasInstance then cur.engineCalls + [Stop] else cur.engineCalls;
    cur.(hasInstance := cur.hasInstance || installs,
         engineCalls := if installs then replaced + [Start] else replaced,
         useFallback := cur.useFallback || (due && (!installs || testStartThrows)),
         testTimers := if installs && !testStartThrows then cur.testTimers + 1 else cur.testTimers,
         snapTranscript := if installs then render.transcript else cur.snapTranscript,
         snapRecording := if installs then render.isRecording else cur.snapRecording,
         snapFallback := if installs then render.useFallback else cur.snapFallback,
         installDeps := if due then Some((render.isRecording, render.useFallback)) else cur.installDeps)
  }

  /** The install effect: the previous run's cleanup, then the body. */
  function InstallEffect(cur: RecorderState, render: RecorderState, testStartThrows: bool, due: bool): RecorderState {
    InstallBody(InstallCleanup(cur, due), render, testStartThrows, due)
  }

  /**
   * The device effect when `due`: while recording with speech, ask for the
   * microphone (through the permission query when there is one); otherwise
   * stop the current media recorder and, if the render saw the engine active,
   * the engine. When not `due`, nothing changes.
   */
  function DeviceEffect(cur: RecorderState, render: RecorderState, due: bool): RecorderState {
    var asks := due && render.isRecording && !render.useFallback;
    var stops := due && !asks && |cur.recorders| > 0;
    var call := if cur.platform.hasPermissionsApi then PermissionQuery(render.recognitionActive)
                else MicrophoneRequest(render.recognitionActive);
    cur.(pending := if asks then cur.pending + [call] else cur.pending,
         recorders := if stops then cur.recorders[|cur.recorders| - 1 := false] else cur.recorders,
         engineCalls := if stops && cur.hasInstance && render.recognitionActive then cur.engineCalls + [Stop]
                        else cur.engineCalls,
         deviceDeps := if due then Some((render.isRecording, render.useFallback, render.recognitionActive))
                       else cur.deviceDeps)
  }

  /** One commit: the three effects in order, each reading the render `s`. */
  function CommitStep(s: RecorderState, testStartThrows: bool): RecorderState {
    DeviceEffect(InstallEffect(EdgeEffect(s), s, testStartThrows, InstallDue(s)), s, DeviceDue(s))
  }

  /** `onresult` as written: the batch is appended to the snapshot transcript, if the snapshot was recording. */
  function ResultStep(s: RecorderState, results: seq<SpeechResult>, resultIndex: nat): RecorderState {
    var batch := FinalText(results, resultIndex);
    var appends := batch != "" && s.snapRecording;
    var current := s.snapTranscript + " " + batch;
    s.(transcript := if appends then current else s.transcript,
       notified := if appends then s.notified + [current] else s.notified)
  }

  /** `handleManualInputSubmit`: a non-blank input is trimmed and appended, reported, and cleared. */
  function SubmitStep(s: RecorderState): RecorderState {
    var appends := !IsBlank(s.manualInput);
    var current := s.transcript + " " + Trim(s.manualInput);
    s.(transcript := if appends then current else s.transcript,
       notified := if appends then s.notified + [current] else s.notified,
       manualInput := if appends then "" else s.manualInput)
  }

  /** The 500 ms timer after a successful test start: stop the current instance. */
  function TimerStep(s: RecorderState): RecorderState
    requires s.testTimers > 0
  {
    s.(testTimers := s.testTimers - 1,
       engineCalls := if s.hasInstance then s.engineCalls + [Stop] else s.engineCalls)
  }

  /** `onend`: the engine is inactive; restart it if the handlers' render was recording with speech. */
  function EndStep(s: RecorderState): RecorderState {
    s.(recognitionActive := false,
       engineCalls := if s.snapRecording && !s.snapFallback then s.engineCalls + [Start] else s.engineCalls)
  }

  /** `onerror`. */
  function ErrorStep(s: RecorderState, code: string): RecorderState {
    s.(useFallback := s.useFallback || FallbackCode(code))
  }

  /** The permission query `k` settles: denied switches to manual input, anything else asks for the microphone. */
  function PermissionStep(s: RecorderState, k: nat, answer: PermissionAnswer): RecorderState
    requires k < |s.pending|
  {
    s.(pending := if answer == Denied then RemoveAt(s.pending, k)
                  else s.pending[k := MicrophoneRequest(s.pending[k].recognitionActive)],
       useFallback := s.useFallback || answer == Denied)
  }

  /**
   * The microphone request `k` succeeds: a new media recorder is started and,
   * if its closure saw the engine inactive, the engine is started; a throwing
   * start switches to manual input.
   */
  function AcquiredStep(s: RecorderState, k: nat, startThrows: bool): RecorderState
    requires k < |s.pending|
  {
    var starts := s.hasInstance && !s.pending[k].recognitionActive;
    s.(pending := RemoveAt(s.pending, k),
       recorders := s.recorders + [true],
       engineCalls := if starts then s.engineCalls + [Start] else s.engineCalls,
       useFallback := s.useFallback || (starts && startThrows))
  }

  /** The microphone request `k` is refused. */
  function RejectedStep(s: RecorderState, k: nat): RecorderState
    requires k < |s.pending|
  {
    s.(pending := RemoveAt(s.pending, k), useFallback := true)
  }

  /** `handleKeyPress`. */
  function KeyStep(s: RecorderState, key: string): RecorderState {
    if key == "Enter" then SubmitStep(s) else s
  }

  /** "Try Start Recognition". */
  function TryStartStep(s: RecorderState): RecorderState {
    s.(engineCalls := if s.hasInstance then s.engineCalls + [Start] else s.engineCalls)
  }

  /** "Switch to Manual Input". */
  function SwitchStep(s: RecorderState): RecorderState {
    s.(engineCalls := if s.hasInstance then s.engineCalls + [Stop] else s.engineCalls, useFallback := true)
  }

  /** The next state. An event that cannot happen in `s` leaves it unchanged. */
  function Step(s: RecorderState, e: Event): RecorderState {
    if !Enabled(s, e) then s
    else
      match e
      case PropChange(recording) => s.(isRecording := recording)
      case Commit(testStartThrows) => CommitStep(s, testStartThrows)
      case TestStopTimer => TimerStep(s)
      case EngineStarted => s.(recognitionActive := true)
      case EngineEnded(_) => EndStep(s)
      case EngineResult(results, resultIndex) => ResultStep(s, results, resultIndex)
      case EngineError(code) => ErrorStep(s, code)
      case PermissionAnswered(k, answer) => PermissionStep(s, k, answer)
      case DeviceAcquired(k, startThrows) => AcquiredStep(s, k, startThrows)
      case DeviceRejected(k) => RejectedStep(s, k)
      case ManualInputChanged(value) => s.(manualInput := value)
      case ManualSubmit => SubmitStep(s)
      case KeyPress(key) => KeyStep(s, key)
      case TryStartClicked => TryStartStep(s)
      case SwitchToManualClicked => SwitchStep(s)
      case IdleToggleClicked => s.(useFallback := !s.useFallback)
  }

  /** The state after a sequence of events. */
  function Run(s: RecorderState, es: seq<Event>): RecorderState
    decreases |es|
  {
    if |es| == 0 then s else Run(Step(s, es[0]), es[1..])
  }

  // ---------------------------------------------------------------------------
  // The recording edge

  /** Recording starts: transcript and manual input are cleared and the host is told `''`, once. */
  lemma RisingEdge(s: RecorderState, testStartThrows: bool)
    requires s.isRecording && !s.prevRecording
    ensures var t := CommitStep(s, testStartThrows);
      && t.transcript == "" && t.manualInput == ""
      && t.notified == s.notified + [""]
      && t.prevRecording
  {
  }

  /** Recording stops: the host is told the transcript of that render, once. */
  lemma FallingEdge(s: RecorderState, testStartThrows: bool)
    requires !s.isRecording && s.prevRecording
    ensures var t := CommitStep(s, testStartThrows);
      && t.notified == s.notified + [s.transcript]
      && t.transcript == s.transcript && !t.prevRecording
  {
  }

  /** Without an edge a commit tells the host nothing; after any commit the ref equals the prop. */
  lemma CommitSyncsEdgeRef(s: RecorderState, testStartThrows: bool)
    ensures var t := CommitStep(s, testStartThrows);
      && t.prevRecording == t.isRecording == s.isRecording
      && (s.isRecording == s.prevRecording ==> t.notified == s.notified && t.transcript == s.transcript)
  {
  }

  // ---------------------------------------------------------------------------
  // The recogniser callbacks

  /**
   * A non-empty batch, while the handlers' render was recording, replaces the
   * transcript by the snapshot transcript, a space and the batch, and reports
   * it; otherwise nothing changes.
   */
  lemma ResultRule(s: RecorderState, results: seq<SpeechResult>, resultIndex: nat)
    ensures var t := ResultStep(s, results, resultIndex);
      var batch := FinalText(results, resultIndex);
      && (batch != "" && s.snapRecording ==>
            && t.transcript == s.snapTranscript + " " + batch
            && t.notified == s.notified + [t.transcript]
            && t == s.(transcript := t.transcript, notified := t.notified))
      && (batch == "" || !s.snapRecording ==> t == s)
  {
  }

  /** Only the three fallback codes switch to manual input; any other error changes nothing. */
  lemma ErrorRule(s: RecorderState, code: string)
    ensures FallbackCode(code) ==> ErrorStep(s, code) == s.(useFallback := true)
    ensures !FallbackCode(code) ==> ErrorStep(s, code) == s
  {
  }

  /**
   * `onend` marks the engine inactive and restarts it exactly when the
   * handlers' render was recording and not in fallback; a restart that throws
   * changes nothing more.
   */
  lemma EndRule(s: RecorderState, restartThrows: bool)
    requires s.hasInstance
    ensures var t := EndStep(s);
      && !t.recognitionActive
      && (t.engineCalls == s.engineCalls + [Start] <==> s.snapRecording && !s.snapFallback)
      && (t.engineCalls == s.engineCalls <==> !(s.snapRecording && !s.snapFallback))
      && t.useFallback == s.useFallback
    ensures Step(s, EngineEnded(restartThrows)) == EndStep(s)
  {
  }

  // ---------------------------------------------------------------------------
  // Manual input

  /**
   * Submitting (the button, or Enter) with a blank input changes nothing;
   * otherwise the trimmed input is appended after one space, reported, and
   * the input cleared.
   */
  lemma SubmitRule(s: RecorderState)
    ensures IsBlank(s.manualInput) ==> SubmitStep(s) == s
    ensures !IsBlank(s.manualInput) ==>
      var t := SubmitStep(s);
      && t.transcript == s.transcript + " " + Trim(s.manualInput)
      && t.notified == s.notified + [t.transcript]
      && t.manualInput == ""
  {
  }

  // ---------------------------------------------------------------------------
  // Fallback

  /** A commit that runs the install effect switches to manual input without a recogniser or when the test start throws. */
  lemma CommitFallbackCauses(s: RecorderState, testStartThrows: bool)
    requires InstallDue(s)
    ensures !s.platform.hasRecognizer ==> CommitStep(s, testStartThrows).useFallback
    ensures s.platform.hasRecognizer ==> CommitStep(s, true).useFallback
  {
  }

  /**
   * The microphone path switches to manual input when permission is denied
   * (dropping the query, no recorder made), when the microphone is refused,
   * or when the recognition start after it throws; so does the button.
   */
  lemma DeviceFallbackCauses(s: RecorderState, k: nat)
    requires k < |s.pending|
    ensures PermissionStep(s, k, Denied).useFallback
    ensures |PermissionStep(s, k, Denied).pending| == |s.pending| - 1
    ensures PermissionStep(s, k, Denied).recorders == s.recorders
    ensures RejectedStep(s, k).useFallback
    ensures s.hasInstance && !s.pending[k].recognitionActive ==> AcquiredStep(s, k, true).useFallback
    ensures SwitchStep(s).useFallback
  {
  }

  /** Conversely, nothing else switches to manual input. */
  lemma FallbackOnlyFromCauses(s: RecorderState, e: Event)
    requires !s.useFallback && Step(s, e).useFallback
    ensures || (e.Commit? && InstallDue(s) && (!s.platform.hasRecognizer || e.testStartThrows))
            || (e.EngineError? && FallbackCode(e.code))
            || (e.PermissionAnswered? && e.answer == Denied)
            || e.DeviceRejected?
            || (e.DeviceAcquired? && e.startThrows)
            || e == SwitchToManualClicked
            || e == IdleToggleClicked
  {
  }

  /** Once on, manual input stays on until the idle toggle is pressed. */
  lemma FallbackClearedOnlyByToggle(s: RecorderState, e: Event)
    requires s.useFallback && !Step(s, e).useFallback
    ensures e == IdleToggleClicked && !s.isRecording
  {
  }

  // ---------------------------------------------------------------------------
  // The reports to the host over a whole run

  /** A space-joined transcript: empty, or starting with the separator space. */
  predicate Spaced(t: string) {
    t == "" || t[0] == ' '
  }

  /** The transcripts the component holds and reports are all space-joined. */
  predicate ReportsSpaced(s: RecorderState) {
    Spaced(s.transcript) && Spaced(s.snapTranscript) && AllSpaced(s.notified)
  }

  predicate AllSpaced(reports: seq<string>) {
    forall k :: 0 <= k < |reports| ==> Spaced(reports[k])
  }

  lemma SpacedAppend(t: string, piece: string)
    requires Spaced(t)
    ensures Spaced(t + " " + piece) && (t + " " + piece)[0] == ' '
  {
  }

  /** A report only ever appends to the list. */
  predicate AppendsAtMostOne(before: seq<string>, after: seq<string>) {
    after == before || (|after| == |before| + 1 && after[..|before|] == before)
  }

  /** A commit keeps the reports space-joined: the edge reports `''` or the held transcript. */
  lemma CommitReports(s: RecorderState, testStartThrows: bool)
    requires ReportsSpaced(s)
    ensures ReportsSpaced(CommitStep(s, testStartThrows))
    ensures AppendsAtMostOne(s.notified, CommitStep(s, testStartThrows).notified)
  {
    var t := CommitStep(s, testStartThrows);
    assert t.transcript == EdgeEffect(s).transcript && t.notified == EdgeEffect(s).notified;
    assert t.snapTranscript == s.snapTranscript || t.snapTranscript == s.transcript;
  }

  /** A result batch reports the snapshot transcript extended by a space and the batch. */
  lemma ResultReports(s: RecorderState, results: seq<SpeechResult>, resultIndex: nat)
    requires ReportsSpaced(s)
    ensures ReportsSpaced(ResultStep(s, results, resultIndex))
    ensures AppendsAtMostOne(s.notified, ResultStep(s, results, resultIndex).notified)
  {
    SpacedAppend(s.snapTranscript, FinalText(results, resultIndex));
  }

  /** A manual submission reports the transcript extended by a space and the trimmed input. */
  lemma SubmitReports(s: RecorderState)
    requires ReportsSpaced(s)
    ensures ReportsSpaced(SubmitStep(s))
    ensures AppendsAtMostOne(s.notified, SubmitStep(s).notified)
  {
    SpacedAppend(s.transcript, Trim(s.manualInput));
  }

  /** One step keeps the reports space-joined and only appends to them, at most one report at a time. */
  lemma StepReports(s: RecorderState, e: Event)
    requires ReportsSpaced(s)
    ensures ReportsSpaced(Step(s, e))
    ensures AppendsAtMostOne(s.notified, Step(s, e).notified)
  {
    if !Enabled(s, e) {
    } else if e.Commit? {
      CommitReports(s, e.testStartThrows);
    } else if e.EngineResult? {
      ResultReports(s, e.results, e.resultIndex);
    } else if e.ManualSubmit? || e.KeyPress? {
      SubmitReports(s);
    } else {
      QuietStep(s, e);
    }
  }

  /** The other events leave the transcripts and the reports alone. */
  lemma QuietStep(s: RecorderState, e: Event)
    requires !e.Commit? && !e.EngineResult? && !e.ManualSubmit? && !e.KeyPress?
    ensures Step(s, e).transcript == s.transcript && Step(s, e).snapTranscript == s.snapTranscript
    ensures Step(s, e).notified == s.notified
  {
    if Enabled(s, e) {
      match e {
        case PropChange(_) =>
        case TestStopTimer =>
        case EngineStarted =>
        case EngineEnded(_) =>
        case EngineError(_) =>
        case PermissionAnswered(_, _) =>
        case DeviceAcquired(_, _) =>
        case DeviceRejected(_) =>
        case ManualInputChanged(_) =>
        case TryStartClicked =>
        case SwitchToManualClicked =>
        case IdleToggleClicked =>
      }
    }
  }

  /**
   * Over any run from a space-joined state, the reports only grow (earlier
   * reports are never changed or withdrawn), and every report is empty or
   * starts with a space: the first piece of a session carries a leading space.
   */
  lemma {:induction false} RunReports(s: RecorderState, es: seq<Event>)
    requires ReportsSpaced(s)
    ensures ReportsSpaced(Run(s, es))
    ensures |Run(s, es).notified| >= |s.notified| && Run(s, es).notified[..|s.notified|] == s.notified
    ensures |Run(s, es).notified| <= |s.notified| + |es|
    decreases |es|
  {
    if |es| > 0 {
      var s1 := Step(s, es[0]);
      StepReports(s, es[0]);
      RunReports(s1, es[1..]);
      var n := Run(s, es).notified;
      assert n[..|s1.notified|][..|s.notified|] == n[..|s.notified|];
    }
  }

  lemma InitialReportsSpaced(platform: Platform)
    ensures ReportsSpaced(Initial(platform)) && Initial(platform).notified == []
  {
  }

  // ---------------------------------------------------------------------------
  // Finding: the handlers read a stale transcript

  /**
   * As written, two batches in a row both start from the snapshot: the
   * second report replaces the first batch instead of extending it.
   */
  lemma StaleSnapshotDropsBatch(s: RecorderState, a: string, b: string)
    requires s.snapRecording && a != "" && b != ""
    ensures var s1 := ResultStep(s, [SpeechResult(true, a)], 0);
      var s2 := ResultStep(s1, [SpeechResult(true, b)], 0);
      && s1.transcript == s.snapTranscript + " " + a
      && s2.transcript == s.snapTranscript + " " + b
      && s2.notified == s.notified + [s.snapTranscript + " " + a, s.snapTranscript + " " + b]
  {
    assert FinalText([SpeechResult(true, a)], 0) == a by {
      assert FinalText([SpeechResult(true, a)], 1) == "";
    }
    assert FinalText([SpeechResult(true, b)], 0) == b by {
      assert FinalText([SpeechResult(true, b)], 1) == "";
    }
  }

  /**
   * As written, the commit that starts a recording snapshots the transcript
   * of the previous session (the reset is not yet rendered), so the first
   * batch of the new session is appended to the old text.
   */
  lemma NewSessionSnapshotsOldTranscript(s: RecorderState, testStartThrows: bool)
    requires s.isRecording && !s.prevRecording && s.platform.hasRecognizer && InstallDue(s)
    ensures var t := CommitStep(s, testStartThrows);
      t.transcript == "" && t.snapTranscript == s.transcript && t.snapRecording
  {
  }

  /** The evidently intended `onresult`: append to the live transcript while the prop says recording. */
  function LiveResultStep(s: RecorderState, results: seq<SpeechResult>, resultIndex: nat): (t: RecorderState)
    ensures var batch := FinalText(results, resultIndex);
      && (batch != "" && s.isRecording ==>
            t.transcript == s.transcript + " " + batch && t.notified == s.notified + [t.transcript])
      && (batch == "" || !s.isRecording ==> t == s)
  {
    var batch := FinalText(results, resultIndex);
    if batch != "" && s.isRecording then
      var current := s.transcript + " " + batch;
      s.(transcript := current, notified := s.notified + [current])
    else s
  }

  /** The pieces a series of batches contributes: a space and the batch, for each non-empty one. */
  function Pieces(batches: seq<string>): string
    decreases |batches|
  {
    if |batches| == 0 then ""
    else (if batches[0] == "" then "" else " " + batches[0]) + Pieces(batches[1..])
  }

  /** The corrected handler over a series of one-entry final batches. */
  function LiveResults(s: RecorderState, batches: seq<string>): RecorderState
    decreases |batches|
  {
    if |batches| == 0 then s
    else LiveResults(LiveResultStep(s, [SpeechResult(true, batches[0])], 0), batches[1..])
  }

  /** With the correction, a recording keeps every batch, in order. */
  lemma {:induction false} LiveBatchesAccumulate(s: RecorderState, batches: seq<string>)
    requires s.isRecording
    ensures LiveResults(s, batches).transcript == s.transcript + Pieces(batches)
    ensures LiveResults(s, batches).isRecording
    decreases |batches|
  {
    if |batches| > 0 {
      var one := [SpeechResult(true, batches[0])];
      assert FinalText(one, 0) == batches[0] by {
        assert FinalText(one, 1) == "";
      }
      var s1 := LiveResultStep(s, one, 0);
      var piece := if batches[0] == "" then "" else " " + batches[0];
      assert s1.transcript == s.transcript + piece && s1.isRecording;
      LiveBatchesAccumulate(s1, batches[1..]);
      assert Pieces(batches) == piece + Pieces(batches[1..]);
      assert s.transcript + piece + Pieces(batches[1..]) == s.transcript + (piece + Pieces(batches[1..]));
    }
  }

  /** With the correction, the first batch after the start of a recording is not prefixed by old text. */
  lemma LiveResultAfterRisingEdge(s: RecorderState, testStartThrows: bool, batch: string)
    requires s.isRecording && !s.prevRecording && batch != ""
    ensures var t := CommitStep(s, testStartThrows);
      LiveResultStep(t, [SpeechResult(true, batch)], 0).transcript == " " + batch
  {
    assert FinalText([SpeechResult(true, batch)], 0) == batch by {
      assert FinalText([SpeechResult(true, batch)], 1) == "";
    }
  }

  // ---------------------------------------------------------------------------
  // The component

  class Recorder {
    const platform: Platform
    var isRecording: bool
    var prevRecording: bool
    var transcript: string
    var manualInput: string
    var useFallback: bool
    var recognitionActive: bool
    var hasInstance: bool
    var testTimers: nat
    var snapTranscript: string
    var snapRecording: bool
    var snapFallback: bool
    var installDeps: Option<(bool, bool)>
    var deviceDeps: Option<(bool, bool, bool)>
    var pending: seq<PendingCall>
    var recorders: seq<bool>
    var engineCalls: seq<EngineCall>
    var notified: seq<string>

    /** The fields as one value. */
    function State(): RecorderState
      reads this
    {
      RecorderState(platform, isRecording, prevRecording, transcript, manualInput, useFallback,
                    recognitionActive, hasInstance, testTimers, snapTranscript, snapRecording,
                    snapFallback, installDeps, deviceDeps, pending, recorders, engineCalls, notified)
    }

    constructor (platform: Platform)
      ensures State() == Initial(platform)
    {
      this.platform := platform;
      isRecording := false;
      prevRecording := false;
      transcript := "";
      manualInput := "";
      useFallback := false;
      recognitionActive := false;
      hasInstance := false;
      testTimers := 0;
      snapTranscript := "";
      snapRecording := false;
      snapFallback := false;
      installDeps := None;
      deviceDeps := None;
      pending := [];
      recorders := [];
      engineCalls := [];
      notified := [];
    }

    /** The parent re-renders with a new `isRecording` prop. */
    method SetRecording(recording: bool)
      modifies this`isRecording
      ensures isRecording == recording
    {
      isRecording := recording;
    }

    /** The recording-edge effect: it writes exactly the fields `EdgeEffect` changes, to its values. */
    method RunEdgeEffect()
      modifies this`transcript, this`manualInput, this`notified, this`prevRecording
      ensures var t := EdgeEffect(old(State()));
        && transcript == t.transcript && manualInput == t.manualInput
        && notified == t.notified && prevRecording == t.prevRecording
      ensures old(isRecording && !prevRecording) ==> transcript == "" && notified == old(notified) + [""]
      ensures old(!isRecording && prevRecording) ==> notified == old(notified) + [old(transcript)]
    {
      if isRecording && !prevRecording {
        transcript := "";
        manualInput := "";
        notified := notified + [""];
      } else if !isRecording && prevRecording {
        notified := notified + [transcript];
      }
      prevRecording := isRecording;
    }

    /** The cleanup the install effect's previous run returned. */
    method RunInstallCleanup()
      modifies this`engineCalls
      ensures engineCalls == InstallCleanup(old(State()), true).engineCalls
    {
      if hasInstance {
        engineCalls := engineCalls + [Stop];
      }
    }

    /** Replace the recogniser instance. */
    method CreateInstance()
      modifies this`hasInstance, this`engineCalls
      ensures hasInstance
      ensures engineCalls == if old(hasInstance) then old(engineCalls) + [Stop] else old(engineCalls)
    {
      if hasInstance {
        engineCalls := engineCalls + [Stop];
      }
      hasInstance := true;
    }

    /** Test-start the new instance. */
    method RunTestStart(testStartThrows: bool)
      modifies this`engineCalls, this`useFallback, this`testTimers
      ensures engineCalls == old(engineCalls) + [Start]
      ensures useFallback == (old(useFallback) || testStartThrows)
      ensures testTimers == if testStartThrows then old(testTimers) else old(testTimers) + 1
    {
      engineCalls := engineCalls + [Start];
      if testStartThrows {
        useFallback := true;
      } else {
        testTimers := testTimers + 1;
      }
    }

    /** Attach the handlers, which see the values of `render`. */
    method RunAttachHandlers(render: RecorderState)
      modifies this`snapTranscript, this`snapRecording, this`snapFallback
      ensures snapTranscript == render.transcript && snapRecording == render.isRecording
      ensures snapFallback == render.useFallback
    {
      snapTranscript := render.transcript;
      snapRecording := render.isRecording;
      snapFallback := render.useFallback;
    }

    /** The install effect's body, run because its dependencies changed; the new handlers see `render`. */
    method RunInstallBody(render: RecorderState, testStartThrows: bool)
      modifies this`hasInstance, this`engineCalls, this`useFallback, this`testTimers
      modifies this`snapTranscript, this`snapRecording, this`snapFallback, this`installDeps
      ensures var t := InstallBody(old(State()), render, testStartThrows, true);
        && hasInstance == t.hasInstance && engineCalls == t.engineCalls
        && useFallback == t.useFallback && testTimers == t.testTimers
        && snapTranscript == t.snapTranscript && snapRecording == t.snapRecording
        && snapFallback == t.snapFallback && installDeps == t.installDeps
    {
      if platform.hasRecognizer {
        CreateInstance();
        RunTestStart(testStartThrows);
        RunAttachHandlers(render);
      } else {
        useFallback := true;
      }
      installDeps := Some((render.isRecording, render.useFallback));
    }

    /** The device effect, run because its dependencies changed, seeing the values of `render`. */
    method RunDeviceEffect(render: RecorderState)
      modifies this`pending, this`recorders, this`engineCalls, this`deviceDeps
      ensures var t := DeviceEffect(old(State()), render, true);
        && pending == t.pending && recorders == t.recorders
        && engineCalls == t.engineCalls && deviceDeps == t.deviceDeps
    {
      if render.isRecording && !render.useFallback {
        if platform.hasPermissionsApi {
          pending := pending + [PermissionQuery(render.recognitionActive)];
        } else {
          pending := pending + [MicrophoneRequest(render.recognitionActive)];
        }
      } else if |recorders| > 0 {
        recorders := recorders[|recorders| - 1 := false];
        if hasInstance && render.recognitionActive {
          engineCalls := engineCalls + [Stop];
        }
      }
      deviceDeps := Some((render.isRecording, render.useFallback, render.recognitionActive));
    }

    /** The 500 ms timer of the test start. */
    method TestStopTimer()
      requires testTimers > 0
      modifies this`testTimers, this`engineCalls
      ensures var t := TimerStep(old(State()));
        testTimers == t.testTimers && engineCalls == t.engineCalls
    {
      testTimers := testTimers - 1;
      if hasInstance {
        engineCalls := engineCalls + [Stop];
      }
    }

    /** `onstart`. */
    method OnStart()
      modifies this`recognitionActive
      ensures recognitionActive
    {
      recognitionActive := true;
    }

    /** `onend`; a restart that throws is caught and changes nothing more. */
    method OnEnd()
      modifies this`recognitionActive, this`engineCalls
      ensures var t := EndStep(old(State()));
        recognitionActive == t.recognitionActive && engineCalls == t.engineCalls
      ensures !recognitionActive
    {
      recognitionActive := false;
      if snapRecording && !snapFallback {
        engineCalls := engineCalls + [Start];
      }
    }

    /** `onresult`, as written: it reads the snapshot the handlers closed over. */
    method OnResult(results: seq<SpeechResult>, resultIndex: nat)
      modifies this`transcript, this`notified
      ensures var t := ResultStep(old(State()), results, resultIndex);
        transcript == t.transcript && notified == t.notified
    {
      var batch := CollectFinal(results, resultIndex);
      if batch != "" {
        if snapRecording {
          var current := snapTranscript + " " + batch;
          transcript := current;
          notified := notified + [current];
        }
      }
    }

    /** `onerror`. */
    method OnError(code: string)
      modifies this`useFallback
      ensures useFallback == ErrorStep(old(State()), code).useFallback
    {
      if code == "no-speech" || code == "audio-capture" || code == "not-allowed" {
        useFallback := true;
      }
    }

    /** The permission query `k` settles. */
    method OnPermission(k: nat, answer: PermissionAnswer)
      requires k < |pending|
      modifies this`pending, this`useFallback
      ensures var t := PermissionStep(old(State()), k, answer);
        pending == t.pending && useFallback == t.useFallback
    {
      if answer == Denied {
        pending := RemoveAt(pending, k);
        useFallback := true;
      } else {
        pending := pending[k := MicrophoneRequest(pending[k].recognitionActive)];
      }
    }

    /** The microphone request `k` succeeds. */
    method OnMicrophone(k: nat, startThrows: bool)
      requires k < |pending|
      modifies this`pending, this`recorders, this`engineCalls, this`useFallback
      ensures var t := AcquiredStep(old(State()), k, startThrows);
        && pending == t.pending && recorders == t.recorders
        && engineCalls == t.engineCalls && useFallback == t.useFallback
    {
      var seen := pending[k].recognitionActive;
      pending := RemoveAt(pending, k);
      recorders := recorders + [true];
      if hasInstance && !seen {
        engineCalls := engineCalls + [Start];
        if startThrows {
          useFallback := true;
        }
      }
    }

    /** The microphone request `k` is refused. */
    method OnMicrophoneRejected(k: nat)
      requires k < |pending|
      modifies this`pending, this`useFallback
      ensures var t := RejectedStep(old(State()), k);
        pending == t.pending && useFallback == t.useFallback
    {
      pending := RemoveAt(pending, k);
      useFallback := true;
    }

    /** `handleManualInputChange`. */
    method ManualInputChange(value: string)
      modifies this`manualInput
      ensures manualInput == value
    {
      manualInput := value;
    }

    /** `handleManualInputSubmit`. */
    method ManualInputSubmit()
      modifies this`transcript, this`notified, this`manualInput
      ensures var t := SubmitStep(old(State()));
        transcript == t.transcript && notified == t.notified && manualInput == t.manualInput
    {
      var input := Trim(manualInput);
      if input != "" {
        var current := transcript + " " + input;
        transcript := current;
        notified := notified + [current];
        manualInput := "";
      }
    }

    /** `handleKeyPress`: Enter submits. */
    method HandleKeyPress(key: string)
      modifies this`transcript, this`notified, this`manualInput
      ensures var t := KeyStep(old(State()), key);
        transcript == t.transcript && notified == t.notified && manualInput == t.manualInput
    {
      if key == "Enter" {
        ManualInputSubmit();
      }
    }

    /** "Try Start Recognition". */
    method TryStartRecognition()
      modifies this`engineCalls
      ensures engineCalls == TryStartStep(old(State())).engineCalls
    {
      if hasInstance {
        engineCalls := engineCalls + [Start];
      }
    }

    /** "Switch to Manual Input". */
    method SwitchToManual()
      modifies this`engineCalls, this`useFallback
      ensures var t := SwitchStep(old(State()));
        engineCalls == t.engineCalls && useFallback == t.useFallback
    {
      if hasInstance {
        engineCalls := engineCalls + [Stop];
      }
      useFallback := true;
    }

    /** The idle-screen toggle between speech and manual input. */
    method ToggleInputMode()
      modifies this`useFallback
      ensures useFallback == !old(useFallback)
    {
      useFallback := !useFallback;
    }
  }
}
