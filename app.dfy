/**
 * The host session of the front end (frontend App.js): starting a stream
 * resets the session, transcript updates from the recorder replace the
 * session text by a three-way rule, and ending the stream posts the text (or
 * a fixed default) to the back end, keeps a debug record of what was sent and
 * of every answer, and shows the result or an error. The HTTP call is
 * split into its two halves: the click that sends, and the settled outcome.
 */
module App {
  import opened Wrappers
  import opened Text
  import opened Api
  import Server

  /** What is posted when the session text is empty or white space only. */
  const DefaultText := "No speech input was provided."
  /** The error shown when posting the default text fails. */
  const DefaultPathError := "An error occurred while processing your request"
  /** The error shown when posting the session text fails and the server gave no message. */
  const GenericError := "An error occurred while processing your data"

  /** `err.response` of a failed post: the HTTP status and the body's `error` field, if any. */
  datatype ErrorResponse = ErrorResponse(status: int, error: Option<string>)

  /** How the post settled: an answer with its status and body, or a thrown error. */
  datatype Outcome =
    | Delivered(status: int, data: Body)
    | Failed(message: string, response: Option<ErrorResponse>)

  /** The status recorded for a failed post: the server's status, or `'Network Error'`. */
  datatype EntryStatus = Code(code: int) | NetworkError

  /** One entry of `debug.apiResponses`. */
  datatype ApiEntry =
    | ResponseEntry(timestamp: string, status: int, data: Body)
    | ErrorEntry(timestamp: string, error: string, entryStatus: EntryStatus)

  /** The end-stream call between sending and settling: what it posted, and whether that was the default. */
  datatype Pending = Pending(text: string, usesDefault: bool)

  /** The text the end-stream call posts: the session text verbatim, or the default when it is blank. */
  function PayloadText(audioText: string): (t: string)
    ensures !IsBlank(t)
    ensures IsBlank(audioText) ==> t == DefaultText
    ensures !IsBlank(audioText) ==> t == audioText
  {
    assert !IsJsSpace(DefaultText[0]);
    if audioText == "" || IsBlank(audioText) then DefaultText else audioText
  }

  /** The posted text is never refused as empty by the server, and it is the text the prompt ends with. */
  lemma PostedTextAccepted(audioText: string)
    ensures Server.RejectEmpty(Server.Request(Some(PayloadText(audioText)), None)) == None
    ensures var p := Server.Prompt(Some(PayloadText(audioText)));
      p[|Server.PromptPrefix|..] == PayloadText(audioText)
  {
    var t := PayloadText(audioText);
    assert t != "" by {
      if t == "" {
        assert IsBlank(t);
      }
    }
  }

  /** `handleTranscriptUpdate`: the session text after the recorder reports `text`. */
  function NextAudioText(audioText: string, text: string, isRecording: bool): string {
    if text == "" && isRecording then ""
    else if text != "" then text
    else audioText
  }

  /** The session text after a series of reports, all while the recording flag stays as given. */
  function AfterUpdates(audioText: string, updates: seq<string>, isRecording: bool): string
    decreases |updates|
  {
    if |updates| == 0 then audioText
    else AfterUpdates(NextAudioText(audioText, updates[0], isRecording), updates[1..], isRecording)
  }

  /** While recording, the session text is the last report (possibly the empty reset). */
  lemma {:induction false} RecordingFollowsLastUpdate(audioText: string, updates: seq<string>)
    ensures AfterUpdates(audioText, updates, true) == if |updates| == 0 then audioText else updates[|updates| - 1]
    decreases |updates|
  {
    if |updates| > 0 {
      RecordingFollowsLastUpdate(NextAudioText(audioText, updates[0], true), updates[1..]);
    }
  }

  /** Every report from index `k` on is empty. */
  predicate AllEmptyFrom(updates: seq<string>, k: nat) {
    forall j :: k <= j < |updates| ==> updates[j] == ""
  }

  lemma AllEmptyFromTail(updates: seq<string>, k: nat)
    requires |updates| > 0
    ensures AllEmptyFrom(updates[1..], k) <==> AllEmptyFrom(updates, k + 1)
  {
    if AllEmptyFrom(updates[1..], k) {
      forall j | k + 1 <= j < |updates| ensures updates[j] == "" {
        assert updates[j] == updates[1..][j - 1];
      }
    }
  }

  /**
   * While not recording, empty reports are ignored: the session text is the
   * last non-empty report, or the old text when every report is empty.
   */
  lemma {:induction false} IdleKeepsLastNonEmpty(audioText: string, updates: seq<string>)
    ensures AllEmptyFrom(updates, 0) ==> AfterUpdates(audioText, updates, false) == audioText
    ensures forall k :: 0 <= k < |updates| && updates[k] != "" && AllEmptyFrom(updates, k + 1) ==>
      AfterUpdates(audioText, updates, false) == updates[k]
    decreases |updates|
  {
    if |updates| > 0 {
      var rest := updates[1..];
      var next := NextAudioText(audioText, updates[0], false);
      IdleKeepsLastNonEmpty(next, rest);
      AllEmptyFromTail(updates, 0);
      forall k | 0 <= k < |updates| && updates[k] != "" && AllEmptyFrom(updates, k + 1)
        ensures AfterUpdates(audioText, updates, false) == updates[k]
      {
        if k > 0 {
          AllEmptyFromTail(updates, k);
          assert rest[k - 1] == updates[k];
        }
      }
    }
  }

  /** `err.response?.data?.error || GenericError`. */
  function ErrorText(response: Option<ErrorResponse>): (e: string)
    ensures response.Some? && Server.Truthy(response.value.error) ==> e == response.value.error.value
    ensures !(response.Some? && Server.Truthy(response.value.error)) ==> e == GenericError
  {
    if response.Some? && Server.Truthy(response.value.error) then response.value.error.value else GenericError
  }

  /** `err.response?.status || 'Network Error'`: a missing response or a zero status is a network error. */
  function StatusOf(response: Option<ErrorResponse>): (s: EntryStatus)
    ensures s == NetworkError <==> response.None? || response.value.status == 0
    ensures s.Code? ==> s.code == response.value.status
  {
    if response.Some? && response.value.status != 0 then Code(response.value.status) else NetworkError
  }

  /** The Start Stream button is enabled. */
  predicate StartEnabled(isRecording: bool, isProcessing: bool) {
    !isRecording && !isProcessing
  }

  /** The End Stream button is enabled. */
  predicate EndEnabled(isRecording: bool, isProcessing: bool) {
    isRecording && !isProcessing
  }

  /** The component's state, with the debug record spread into its three fields. */
  class Host {
    var isRecording: bool
    var audioText: string
    var capturedImage: Option<string>
    var isProcessing: bool
    var result: Option<Body>
    var error: Option<string>
    var lastTextSent: string
    var lastImageSent: bool
    var apiResponses: seq<ApiEntry>
    /** The end-stream call that has sent and not yet settled. */
    var awaiting: Option<Pending>

    /**
     * A post is in flight exactly while processing, never during a recording,
     * and it carries the payload chosen from the recorded `lastTextSent`.
     */
    predicate Valid()
      reads this
    {
      && (awaiting.Some? <==> isProcessing)
      && (awaiting.Some? ==> !isRecording)
      && (awaiting.Some? ==>
            awaiting.value.text == PayloadText(lastTextSent)
            && awaiting.value.usesDefault == IsBlank(lastTextSent))
      && !lastImageSent
    }

    constructor ()
      ensures Valid()
      ensures !isRecording && audioText == "" && capturedImage == None && !isProcessing
      ensures result == None && error == None
      ensures lastTextSent == "" && !lastImageSent && apiResponses == [] && awaiting == None
    {
      isRecording := false;
      audioText := "";
      capturedImage := None;
      isProcessing := false;
      result := None;
      error := None;
      lastTextSent := "";
      lastImageSent := false;
      apiResponses := [];
      awaiting := None;
    }

    /** `handleStartStream`: recording, with the text, image, result, error and debug record cleared. */
    method StartStream()
      requires Valid() && StartEnabled(isRecording, isProcessing)
      modifies this
      ensures Valid()
      ensures isRecording && audioText == "" && capturedImage == None
      ensures result == None && error == None
      ensures lastTextSent == "" && !lastImageSent && apiResponses == []
      ensures isProcessing == old(isProcessing) && awaiting == old(awaiting)
      ensures EndEnabled(isRecording, isProcessing) && !StartEnabled(isRecording, isProcessing)
    {
      isRecording := true;
      audioText := "";
      capturedImage := None;
      result := None;
      error := None;
      lastTextSent := "";
      lastImageSent := false;
      apiResponses := [];
    }

    /**
     * The first half of `handleEndStream`: stop recording, start processing,
     * record the session text as sent, and post the payload text.
     */
    method BeginEndStream() returns (posted: string)
      requires Valid() && EndEnabled(isRecording, isProcessing)
      modifies this
      ensures Valid()
      ensures posted == PayloadText(old(audioText)) && !IsBlank(posted)
      ensures !isRecording && isProcessing
      ensures !StartEnabled(isRecording, isProcessing) && !EndEnabled(isRecording, isProcessing)
      ensures lastTextSent == old(audioText) && !lastImageSent
      ensures awaiting == Some(Pending(posted, IsBlank(old(audioText))))
      ensures audioText == old(audioText) && capturedImage == old(capturedImage)
      ensures result == old(result) && error == old(error) && apiResponses == old(apiResponses)
    {
      isRecording := false;
      isProcessing := true;
      lastTextSent := audioText;
      lastImageSent := false;
      var usesDefault := audioText == "" || IsBlank(audioText);
      posted := if usesDefault then DefaultText else audioText;
      awaiting := Some(Pending(posted, usesDefault));
    }

    /**
     * The second half: the post settled with `outcome` at `timestamp`. A
     * delivered answer is logged and shown; a failure shows an error, and is
     * logged only when the session text (not the default) was posted.
     * Processing ends on every path.
     */
    method CompleteEndStream(outcome: Outcome, timestamp: string)
      requires Valid() && awaiting.Some?
      modifies this
      ensures Valid()
      ensures !isProcessing && awaiting == None
      ensures StartEnabled(isRecording, isProcessing) && !EndEnabled(isRecording, isProcessing)
      ensures outcome.Delivered? ==>
        && apiResponses == old(apiResponses) + [ResponseEntry(timestamp, outcome.status, outcome.data)]
        && result == Some(outcome.data) && error == old(error)
      ensures outcome.Failed? && old(awaiting).value.usesDefault ==>
        && apiResponses == old(apiResponses)
        && error == Some(DefaultPathError) && result == old(result)
      ensures outcome.Failed? && !old(awaiting).value.usesDefault ==>
        && apiResponses == old(apiResponses) + [ErrorEntry(timestamp, outcome.message, StatusOf(outcome.response))]
        && error == Some(ErrorText(outcome.response)) && result == old(result)
      ensures isRecording == old(isRecording) && audioText == old(audioText)
      ensures capturedImage == old(capturedImage)
      ensures lastTextSent == old(lastTextSent) && lastImageSent == old(lastImageSent)
    {
      var pending := awaiting.value;
      match outcome {
        case Delivered(status, data) =>
          apiResponses := apiResponses + [ResponseEntry(timestamp, status, data)];
          result := Some(data);
        case Failed(message, response) =>
          if pending.usesDefault {
            error := Some(DefaultPathError);
          } else {
            error := Some(ErrorText(response));
            apiResponses := apiResponses + [ErrorEntry(timestamp, message, StatusOf(response))];
          }
      }
      isProcessing := false;
      awaiting := None;
    }

    /** `handleTranscriptUpdate`. */
    method TranscriptUpdate(text: string)
      requires Valid()
      modifies this
      ensures Valid()
      ensures audioText == NextAudioText(old(audioText), text, old(isRecording))
      ensures text != "" ==> audioText == text
      ensures text == "" && isRecording ==> audioText == ""
      ensures text == "" && !isRecording ==> audioText == old(audioText)
      ensures isRecording == old(isRecording) && capturedImage == old(capturedImage)
      ensures isProcessing == old(isProcessing) && result == old(result) && error == old(error)
      ensures lastTextSent == old(lastTextSent) && lastImageSent == old(lastImageSent)
      ensures apiResponses == old(apiResponses) && awaiting == old(awaiting)
    {
      if text == "" && isRecording {
        audioText := "";
      } else if text != "" {
        audioText := text;
      }
    }

    /** `handleImageCapture`: the camera handed over a frame. */
    method ImageCapture(image: string)
      requires Valid()
      modifies this
      ensures Valid()
      ensures capturedImage == Some(image)
      ensures isRecording == old(isRecording) && audioText == old(audioText)
      ensures isProcessing == old(isProcessing) && result == old(result) && error == old(error)
      ensures lastTextSent == old(lastTextSent) && lastImageSent == old(lastImageSent)
      ensures apiResponses == old(apiResponses) && awaiting == old(awaiting)
    {
      capturedImage := Some(image);
    }
  }

  /** A whole session: start, reports while recording, end, settle. The log gains at most the one entry. */
  method Session(host: Host, updates: seq<string>, outcome: Outcome, timestamp: string) returns (posted: string)
    requires host.Valid() && StartEnabled(host.isRecording, host.isProcessing)
    modifies host
    ensures host.Valid() && !host.isRecording && !host.isProcessing
    ensures posted == PayloadText(if |updates| == 0 then "" else updates[|updates| - 1])
    ensures host.lastTextSent == (if |updates| == 0 then "" else updates[|updates| - 1])
    ensures |host.apiResponses| <= 1
    ensures outcome.Delivered? ==> host.result == Some(outcome.data) && |host.apiResponses| == 1
  {
    host.StartStream();
    var k := 0;
    while k < |updates|
      invariant 0 <= k <= |updates|
      invariant host.Valid() && host.isRecording && !host.isProcessing
      invariant host.apiResponses == []
      invariant host.audioText == AfterUpdates("", updates[..k], true)
    {
      host.TranscriptUpdate(updates[k]);
      assert updates[..k + 1] == updates[..k] + [updates[k]];
      AfterUpdatesSnoc("", updates[..k], updates[k], true);
      k := k + 1;
    }
    assert updates[..|updates|] == updates;
    RecordingFollowsLastUpdate("", updates);
    posted := host.BeginEndStream();
    host.CompleteEndStream(outcome, timestamp);
  }

  /** One more report after a series is one more step of the rule. */
  lemma {:induction false} AfterUpdatesSnoc(audioText: string, updates: seq<string>, text: string, isRecording: bool)
    ensures AfterUpdates(audioText, updates + [text], isRecording)
      == NextAudioText(AfterUpdates(audioText, updates, isRecording), text, isRecording)
    decreases |updates|
  {
    if |updates| > 0 {
      assert (updates + [text])[1..] == updates[1..] + [text];
      AfterUpdatesSnoc(NextAudioText(audioText, updates[0], isRecording), updates[1..], text, isRecording);
    }
  }
}
