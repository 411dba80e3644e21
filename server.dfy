/**
 * The pure pieces of the `/api/process` route of the Express back end
 * (express-backend/server.js): the empty-request check, the prompt, the
 * data-URL parser, the content list handed to the language model, the
 * unique file names and the response shapes.
 *
 * The language-model call, the file writes, the clock and the random
 * generator are inputs: `Env` carries their outcomes.
 */
module Server {
  import opened Wrappers
  import opened Text
  import opened Api

  /** The `text` and `image` fields of the JSON request body; `None` when absent or `null`. */
  datatype Request = Request(text: Option<string>, image: Option<string>)

  /** JavaScript truthiness of an optional string: present and non-empty. */
  predicate Truthy(v: Option<string>) {
    v.Some? && v.value != ""
  }

  const NoDataError := "No valid text or image data was provided"

  /** The early answer of the route: a 400 exactly when neither field is truthy. */
  function RejectEmpty(req: Request): (r: Option<Response>)
    ensures r.Some? <==> !Truthy(req.text) && !Truthy(req.image)
    ensures r.Some? ==> r.value.status == 400 && r.value.body == ErrorBody(NoDataError)
  {
    if !Truthy(req.text) && !Truthy(req.image) then Some(Response(400, ErrorBody(NoDataError)))
    else None
  }

  const PromptPrefix := "Please respond directly to the following. Don't summarize, just answer as if you're having a conversation:\n\nText: "
  const NoTextPlaceholder := "No text provided"

  /** The text part of the message: the fixed instruction, then the request text or a placeholder. */
  function Prompt(text: Option<string>): (p: string)
    ensures StartsWith(p, PromptPrefix)
    ensures Truthy(text) ==> p[|PromptPrefix|..] == text.value
    ensures !Truthy(text) ==> p[|PromptPrefix|..] == NoTextPlaceholder
  {
    PromptPrefix + (if Truthy(text) then text.value else NoTextPlaceholder)
  }

  /** The two groups captured by `/^data:image\/([a-zA-Z]+);base64,(.+)$/`. */
  datatype DataUrl = DataUrl(imageType: string, data: string)

  const DataUrlHead := "data:image/"
  const Base64Marker := ";base64,"

  /** No character of `s` is a line terminator: `.` matches each of them. */
  predicate NoLineBreaks(s: string) {
    forall i :: 0 <= i < |s| ==> !IsLineTerminator(s[i])
  }

  /** What the two groups can hold: one or more ASCII letters; one or more characters that `.` matches. */
  predicate WellFormed(u: DataUrl) {
    && |u.imageType| > 0
    && (forall i :: 0 <= i < |u.imageType| ==> IsAsciiLetter(u.imageType[i]))
    && |u.data| > 0
    && NoLineBreaks(u.data)
  }

  /** The data URL whose groups are those of `u`. */
  function Render(u: DataUrl): string {
    DataUrlHead + u.imageType + Base64Marker + u.data
  }

  /** The length of the run of ASCII letters that starts at `i`. */
  function LetterRun(s: string, i: nat): (n: nat)
    requires i <= |s|
    ensures i + n <= |s|
    ensures forall k :: i <= k < i + n ==> IsAsciiLetter(s[k])
    ensures i + n == |s| || !IsAsciiLetter(s[i + n])
    decreases |s| - i
  {
    if i < |s| && IsAsciiLetter(s[i]) then 1 + LetterRun(s, i + 1) else 0
  }

  /**
   * Matching the data-URL pattern: `^` and `$` anchor at the ends of the whole
   * string (no `m` flag) and `.` excludes the line terminators (no `s` flag).
   * A match always has the shape `Render` gives it.
   */
  function ParseDataUrl(s: string): (r: Option<DataUrl>)
    ensures r.Some? ==> WellFormed(r.value) && Render(r.value) == s
  {
    if !StartsWith(s, DataUrlHead) then None
    else
      var rest := s[|DataUrlHead|..];
      var n := LetterRun(rest, 0);
      var tail := rest[n..];
      if n > 0 && StartsWith(tail, Base64Marker) && |tail| > |Base64Marker| && NoLineBreaks(tail[|Base64Marker|..])
      then
        MatchRenders(s, rest, n, tail);
        Some(DataUrl(rest[..n], tail[|Base64Marker|..]))
      else None
  }

  lemma MatchRenders(s: string, rest: string, n: nat, tail: string)
    requires StartsWith(s, DataUrlHead) && rest == s[|DataUrlHead|..]
    requires n <= |rest| && tail == rest[n..] && StartsWith(tail, Base64Marker)
    ensures Render(DataUrl(rest[..n], tail[|Base64Marker|..])) == s
  {
    assert tail == Base64Marker + tail[|Base64Marker|..];
    assert rest == rest[..n] + tail;
    assert s == DataUrlHead + rest;
  }

  /** Every well-formed pair of groups is matched back from its rendering. */
  lemma ParseRender(u: DataUrl)
    requires WellFormed(u)
    ensures ParseDataUrl(Render(u)) == Some(u)
  {
    var s := Render(u);
    assert s[..|DataUrlHead|] == DataUrlHead;
    var rest := s[|DataUrlHead|..];
    assert rest == u.imageType + Base64Marker + u.data;
    assert forall k :: 0 <= k < |u.imageType| ==> rest[k] == u.imageType[k];
    assert rest[|u.imageType|] == ';';
    var n := LetterRun(rest, 0);
    assert n == |u.imageType|;
    assert rest[..n] == u.imageType;
    var tail := rest[n..];
    assert tail == Base64Marker + u.data;
    assert tail[..|Base64Marker|] == Base64Marker;
    assert tail[|Base64Marker|..] == u.data;
  }

  /** The pattern matches exactly the renderings of well-formed groups. */
  lemma ParseDataUrlExactly(s: string, u: DataUrl)
    ensures ParseDataUrl(s) == Some(u) <==> WellFormed(u) && s == Render(u)
  {
    if WellFormed(u) && s == Render(u) {
      ParseRender(u);
    }
  }

  /** One element of the `content` array sent to the model. */
  datatype ContentPart =
    | TextContent(text: string)
    | ImageContent(mediaType: string, data: string)

  /**
   * The image kept for the message: the request's image when it starts with
   * `data:image` and matches the pattern, and saving it to disk did not throw
   * (a throw there is caught and only drops the image).
   */
  function AttachedImage(image: Option<string>, imageSaved: bool): (r: Option<DataUrl>)
    ensures r.Some? ==> image.Some? && imageSaved && WellFormed(r.value) && Render(r.value) == image.value
  {
    if Truthy(image) && StartsWith(image.value, "data:image") && imageSaved then ParseDataUrl(image.value)
    else None
  }

  /** A malformed image never stops the request: it is dropped, and the text part is still sent. */
  lemma MalformedImageDropped(req: Request, imageSaved: bool)
    requires req.image.Some?
    requires forall u :: WellFormed(u) ==> Render(u) != req.image.value
    ensures AttachedImage(req.image, imageSaved) == None
    ensures MessageContent(req, imageSaved) == [TextContent(Prompt(req.text))]
  {
  }

  /** A well-formed data URL is attached with media type `image/<letters>` and the text after the comma as data. */
  lemma WellFormedImageAttached(req: Request, u: DataUrl)
    requires WellFormed(u) && req.image == Some(Render(u))
    ensures MessageContent(req, true) == [TextContent(Prompt(req.text)), ImageContent("image/" + u.imageType, u.data)]
  {
    ParseRender(u);
    assert StartsWith(Render(u), "data:image");
  }

  /** The message content: the prompt, then the attached image if there is one. */
  function MessageContent(req: Request, imageSaved: bool): seq<ContentPart> {
    var head := [TextContent(Prompt(req.text))];
    match AttachedImage(req.image, imageSaved)
    case None => head
    case Some(u) => head + [ImageContent("image/" + u.imageType, u.data)]
  }

  /** The route's construction of `messageContent`: start with the text part, push the image part. */
  method BuildContent(req: Request, imageSaved: bool) returns (content: seq<ContentPart>)
    ensures content == MessageContent(req, imageSaved)
    ensures 1 <= |content| <= 2 && content[0] == TextContent(Prompt(req.text))
  {
    content := [TextContent(Prompt(req.text))];
    if req.image.Some? && req.image.value != "" && StartsWith(req.image.value, "data:image") {
      var matches := ParseDataUrl(req.image.value);
      if matches.Some? && imageSaved {
        content := content + [ImageContent("image/" + matches.value.imageType, matches.value.data)];
      }
    }
  }

  /** `toISOString().replace(/[:.]/g, '-')`: every colon and dot becomes a dash. */
  function Sanitize(t: string): (r: string)
    ensures |r| == |t|
    ensures forall i :: 0 <= i < |t| ==> r[i] == (if t[i] == ':' || t[i] == '.' then '-' else t[i])
    ensures ':' !in r && '.' !in r
  {
    seq(|t|, i requires 0 <= i < |t| => if t[i] == ':' || t[i] == '.' then '-' else t[i])
  }

  function Pow10(k: nat): nat {
    if k == 0 then 1 else 10 * Pow10(k - 1)
  }

  /** A number below 10^k prints with at most k digits. */
  lemma {:induction false} NatToStringLength(n: nat, k: nat)
    requires 1 <= k && n < Pow10(k)
    ensures |NatToString(n)| <= k
    decreases k
  {
    if n >= 10 {
      assert k >= 2;
      assert n / 10 < Pow10(k - 1);
      NatToStringLength(n / 10, k - 1);
    }
  }

  /**
   * `generateUniqueFilename(ext)` with the ISO time stamp and the value of
   * `Math.floor(Math.random() * 10000)` passed in. The stem holds no dot, so the
   * extension is exactly what follows the first dot, and the random part has
   * one to four digits.
   */
  function GenerateUniqueFilename(isoTimestamp: string, random: nat, ext: string): (name: string)
    requires random < 10000
    ensures var stem := Sanitize(isoTimestamp) + "-" + NatToString(random);
      && name == stem + "." + ext
      && '.' !in stem && ':' !in stem
      && |isoTimestamp| + 2 <= |stem| <= |isoTimestamp| + 5
  {
    var digits := NatToString(random);
    NatToStringLength(random, 4);
    assert '.' !in digits by {
      forall i | 0 <= i < |digits| ensures digits[i] != '.' {
        assert IsDigit(digits[i]);
      }
    }
    Sanitize(isoTimestamp) + "-" + digits + "." + ext
  }

  /** What the language-model call does: answers with `content[0].text`, or throws with a message. */
  datatype ModelReply = Answered(text: string) | ModelFailed(message: string)

  /**
   * The outside world of one request: whether saving the image worked, the
   * model's reply, the error message of a failed summary write (`None` when it
   * worked), and the clock and random value used for the summary file name.
   */
  datatype Env = Env(imageSaved: bool, reply: ModelReply, summaryWriteError: Option<string>,
                     timestamp: string, random: nat)

  /**
   * The route handler: the response it sends and the content it gave the model
   * (`None` when the model was not called).
   */
  method Process(req: Request, env: Env) returns (response: Response, sent: Option<seq<ContentPart>>)
    requires env.random < 10000
    ensures response.status == 400 <==> !Truthy(req.text) && !Truthy(req.image)
    ensures response.status == 400 ==> sent == None && response.body == ErrorBody(NoDataError)
    ensures response.status != 400 ==> sent == Some(MessageContent(req, env.imageSaved))
    ensures response.status == 200 <==> response.body.SuccessBody?
    ensures response.status == 200 <==> response.status != 400 && env.reply.Answered? && env.summaryWriteError.None?
    ensures response.status == 200 ==>
      response.body == SuccessBody(env.reply.text, GenerateUniqueFilename(env.timestamp, env.random, "txt"))
    ensures response.status in {200, 400, 500}
    ensures response.status == 500 && env.reply.ModelFailed? ==> response.body == ErrorBody(env.reply.message)
    ensures response.status == 500 && env.reply.Answered? ==> response.body == ErrorBody(env.summaryWriteError.value)
  {
    var early := RejectEmpty(req);
    if early.Some? {
      return early.value, None;
    }
    var content := BuildContent(req, env.imageSaved);
    sent := Some(content);
    match env.reply {
      case ModelFailed(message) =>
        response := Response(500, ErrorBody(message));
      case Answered(answer) =>
        var summaryFilename := GenerateUniqueFilename(env.timestamp, env.random, "txt");
        match env.summaryWriteError {
          case Some(message) =>
            response := Response(500, ErrorBody(message));
          case None =>
            response := Response(200, SuccessBody(answer, summaryFilename));
        }
    }
  }
}
