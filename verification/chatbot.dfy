/** The playground page: the user picks a skill, selects a file or types a
    URL, and submits; the page validates the input, posts a JSON body to the
    skill's relay endpoint and shows either the result or an error. */
module Chatbot {
  import opened JsValues
  import opened Skills
  import Relay

  const ConversationEndpoint: string := "/api/gemini/conversation"
  const ImageEndpoint: string := "/api/gemini/image"
  const SummarizeEndpoint: string := "/api/gemini/summarize"

  const MissingAudioMessage: string := "Please upload an audio file for Conversation Analysis."
  const MissingImageMessage: string := "Please upload an image for Image Analysis."
  const MissingDocumentMessage: string := "Please upload a PDF/DOC or provide a URL."
  const ServerErrorMessage: string := "Server error"
  const UnknownErrorMessage: string := "Unknown error"

  /** The selected `File`: its name, MIME type and size in bytes. */
  datatype FileInfo = FileInfo(name: string, mimeType: string, size: nat)

  /** A selected file together with its base64 data URL. */
  datatype Upload = Upload(file: FileInfo, dataUrl: string)

  /** The request the page sends: the endpoint, the method, the headers and
      the JSON body. */
  datatype Request = Request(endpoint: string, httpMethod: string,
                             headers: map<string, string>, body: JsValue)

  /** How the request ends, as the page's promise chain sees it: an ok reply
      whose JSON was read, a non-ok reply with its text, or a thrown error
      (network failure, unreadable JSON) with its message. */
  datatype ServerReply = ReplyOk(json: JsValue) | ReplyNotOk(text: string) | ReplyFailed(message: string)

  datatype SubmitOutcome = Succeeded(result: JsValue) | Failed(message: string)

  /** Whether `f.type.startsWith("image/")`. */
  predicate IsImageType(mimeType: string) {
    "image/" <= mimeType
  }

  /** The skill-specific input check: the message to show, or None when the
      submission may proceed. Conversation and image need a file; the
      document skill needs a file or a URL that is not blank. */
  function ValidationError(skill: string, file: Option<FileInfo>, urlInput: string): (e: Option<string>)
    ensures e.Some? <==>
      || ((skill == Conversation || skill == Image) && file.None?)
      || (skill == DocumentUrl && file.None? && forall i :: 0 <= i < |urlInput| ==> IsJsWhitespace(urlInput[i]))
    ensures e.Some? && skill == Conversation ==> e.value == MissingAudioMessage
    ensures e.Some? && skill == Image ==> e.value == MissingImageMessage
    ensures e.Some? && skill == DocumentUrl ==> e.value == MissingDocumentMessage
  {
    if skill == Conversation && file.None? then Some(MissingAudioMessage)
    else if skill == Image && file.None? then Some(MissingImageMessage)
    else if skill == DocumentUrl && file.None? && Trim(urlInput) == "" then Some(MissingDocumentMessage)
    else None
  }

  /** The relay endpoint for a skill; none for an unknown skill. */
  function EndpointFor(skill: string): (endpoint: string)
    ensures skill == Conversation ==> endpoint == ConversationEndpoint
    ensures skill == Image ==> endpoint == ImageEndpoint
    ensures skill == DocumentUrl ==> endpoint == SummarizeEndpoint
    ensures endpoint == "" <==> !IsKnownSkill(skill)
  {
    if skill == Conversation then ConversationEndpoint
    else if skill == Image then ImageEndpoint
    else if skill == DocumentUrl then SummarizeEndpoint
    else ""
  }

  /** The request body: the file's name, type and data exactly when a file
      is selected, and the URL exactly when the URL field is non-empty, sent
      as typed (not trimmed). */
  function RequestBody(upload: Option<Upload>, urlInput: string): (body: JsValue)
    ensures body.Obj? && body.props.Keys <= {"fileName", "mimeType", "data", "url"}
    ensures ("fileName" in body.props) == ("mimeType" in body.props) == ("data" in body.props) == upload.Some?
    ensures upload.Some? ==>
      && body.props["fileName"] == Str(upload.value.file.name)
      && body.props["mimeType"] == Str(upload.value.file.mimeType)
      && body.props["data"] == Str(upload.value.dataUrl)
    ensures "url" in body.props <==> urlInput != ""
    ensures urlInput != "" ==> body.props["url"] == Str(urlInput)
  {
    var fileFields: map<string, JsValue> :=
      if upload.Some? then
        map["fileName" := Str(upload.value.file.name),
            "mimeType" := Str(upload.value.file.mimeType),
            "data" := Str(upload.value.dataUrl)]
      else map[];
    Obj(if urlInput != "" then fileFields["url" := Str(urlInput)] else fileFields)
  }

  /** What the page makes of the way the request ended: the result, or an
      error message that is never empty and so is always displayed. */
  function ReplyOutcome(reply: ServerReply): (o: SubmitOutcome)
    ensures o.Succeeded? <==> reply.ReplyOk?
    ensures reply.ReplyOk? ==> o.result == reply.json
    ensures reply.ReplyNotOk? ==> o.message == if reply.text == "" then ServerErrorMessage else reply.text
    ensures reply.ReplyFailed? ==> o.message == if reply.message == "" then UnknownErrorMessage else reply.message
    ensures o.Failed? ==> o.message != ""
  {
    match reply
    case ReplyOk(json) => Succeeded(json)
    case ReplyNotOk(text) => Failed(if text == "" then ServerErrorMessage else text)
    case ReplyFailed(message) => Failed(if message == "" then UnknownErrorMessage else message)
  }

  /** `result[primary] || result.text || fallback`. */
  function FallbackText(result: JsValue, primary: string, fallback: string): (shown: JsValue)
    requires fallback != ""
    ensures Truthy(shown)
    ensures Truthy(Get(result, primary)) ==> shown == Get(result, primary)
    ensures !Truthy(Get(result, primary)) && Truthy(Get(result, "text")) ==> shown == Get(result, "text")
    ensures !Truthy(Get(result, primary)) && !Truthy(Get(result, "text")) ==> shown == Str(fallback)
  {
    Or(Or(Get(result, primary), Get(result, "text")), Str(fallback))
  }

  /** The text of the results panel: nothing while the result is falsy or
      the skill is unknown; otherwise the skill's primary field, the plain
      text, or a "No ... returned" notice, whichever comes first. */
  function ResultText(skill: string, result: JsValue): (shown: Option<JsValue>)
    ensures shown.Some? <==> Truthy(result) && IsKnownSkill(skill)
    ensures shown.Some? ==> Truthy(shown.value)
    ensures shown.Some? && skill == Conversation ==> shown.value == FallbackText(result, "transcript", "No transcript returned")
    ensures shown.Some? && skill == Image ==> shown.value == FallbackText(result, "caption", "No caption returned")
    ensures shown.Some? && skill == DocumentUrl ==> shown.value == FallbackText(result, "summary", "No summary returned")
  {
    if !Truthy(result) then None
    else if skill == Conversation then Some(FallbackText(result, "transcript", "No transcript returned"))
    else if skill == Image then Some(FallbackText(result, "caption", "No caption returned"))
    else if skill == DocumentUrl then Some(FallbackText(result, "summary", "No summary returned"))
    else None
  }

  /** For the document skill with a file selected, a whitespace-only URL
      passes validation and is still sent alongside the file. */
  lemma BlankUrlSentWithFile(upload: Upload, urlInput: string)
    requires urlInput != "" && Trim(urlInput) == ""
    ensures ValidationError(DocumentUrl, Some(upload.file), urlInput).None?
    ensures var body := RequestBody(Some(upload), urlInput);
      "url" in body.props && body.props["url"] == Str(urlInput)
  {
  }

  /** What the page sends reaches the provider unchanged: the relay's payload
      carries the body's file fields and URL (or nothing where the body has
      none) and an empty `extra` object. */
  lemma ClientFieldsReachProvider(upload: Option<Upload>, urlInput: string, taskHint: JsValue)
    ensures var input := Get(Relay.Payload(RequestBody(upload, urlInput), taskHint), "input");
      && Get(input, "fileName") == (if upload.Some? then Str(upload.value.file.name) else Undefined)
      && Get(input, "mimeType") == (if upload.Some? then Str(upload.value.file.mimeType) else Undefined)
      && Get(input, "data") == (if upload.Some? then Str(upload.value.dataUrl) else Undefined)
      && Get(input, "url") == (if urlInput != "" then Str(urlInput) else Undefined)
      && Get(input, "extra") == Obj(map[])
  {
  }

  /** The page's state. */
  class ChatbotPage {
    var skill: string
    var file: Option<FileInfo>
    var filePreview: string
    var urlInput: string
    var loading: bool
    var result: JsValue
    var error: string

    constructor ()
      ensures skill == Conversation && file.None? && filePreview == "" && urlInput == ""
      ensures !loading && result == Null && error == ""
    {
      skill := Conversation;
      file := None;
      filePreview := "";
      urlInput := "";
      loading := false;
      result := Null;
      error := "";
    }

    /** `handleFile`: a file was picked (or the picker was emptied).
        `objectUrl` is what `URL.createObjectURL` returns for it. */
    method HandleFile(picked: Option<FileInfo>, objectUrl: string)
      modifies this
      ensures result == Null && error == ""
      ensures file == picked
      ensures filePreview == if picked.Some? && IsImageType(picked.value.mimeType) then objectUrl else ""
      ensures skill == old(skill) && urlInput == old(urlInput) && loading == old(loading)
    {
      result := Null;
      error := "";
      if picked.None? {
        file := None;
        filePreview := "";
        return;
      }
      file := picked;
      if IsImageType(picked.value.mimeType) {
        filePreview := objectUrl;
      } else {
        filePreview := "";
      }
    }

    /** The URL field's change handler. */
    method EditUrl(text: string)
      modifies this
      ensures urlInput == text
      ensures skill == old(skill) && file == old(file) && filePreview == old(filePreview)
      ensures loading == old(loading) && result == old(result) && error == old(error)
    {
      urlInput := text;
    }

    /** The skill selector's change handler: a new skill starts from a clean form. */
    method SelectSkill(newSkill: string)
      modifies this
      ensures skill == newSkill
      ensures result == Null && error == "" && file.None? && filePreview == "" && urlInput == ""
      ensures loading == old(loading)
    {
      skill := newSkill;
      result := Null;
      error := "";
      file := None;
      filePreview := "";
      urlInput := "";
    }

    /** The Reset button: the same clean form, keeping the skill. */
    method Reset()
      modifies this
      ensures result == Null && error == "" && file.None? && filePreview == "" && urlInput == ""
      ensures skill == old(skill) && loading == old(loading)
    {
      result := Null;
      error := "";
      file := None;
      filePreview := "";
      urlInput := "";
    }

    /** `handleSubmit` up to the `fetch` call. `encoded` is the data URL the
        file reader produced for the selected file, None when it failed (it
        rejects with an event that has no message). Returns the request sent,
        if any. */
    method StartSubmit(encoded: Option<string>) returns (sent: Option<Request>)
      modifies this
      ensures skill == old(skill) && file == old(file) && filePreview == old(filePreview)
      ensures urlInput == old(urlInput) && result == Null
      ensures ValidationError(skill, file, urlInput).Some? ==>
        sent.None? && error == ValidationError(skill, file, urlInput).value && loading == old(loading)
      ensures ValidationError(skill, file, urlInput).None? && file.Some? && encoded.None? ==>
        sent.None? && error == UnknownErrorMessage && !loading
      ensures ValidationError(skill, file, urlInput).None? && (file.None? || encoded.Some?) ==>
        && sent.Some? && error == "" && loading
        && sent.value.endpoint == EndpointFor(skill)
        && sent.value.httpMethod == "POST"
        && sent.value.headers == map["Content-Type" := "application/json"]
        && sent.value.body == RequestBody(if file.Some? then Some(Upload(file.value, encoded.value)) else None,
                                          urlInput)
    {
      error := "";
      result := Null;
      if skill == Conversation && file.None? {
        error := MissingAudioMessage;
        return None;
      }
      if skill == Image && file.None? {
        error := MissingImageMessage;
        return None;
      }
      if skill == DocumentUrl && file.None? && Trim(urlInput) == "" {
        error := MissingDocumentMessage;
        return None;
      }
      loading := true;

      var body: map<string, JsValue> := map[];
      if file.Some? {
        if encoded.None? {
          error := UnknownErrorMessage;
          loading := false;
          return None;
        }
        body := body["fileName" := Str(file.value.name)];
        body := body["mimeType" := Str(file.value.mimeType)];
        body := body["data" := Str(encoded.value)];
      }
      if urlInput != "" {
        body := body["url" := Str(urlInput)];
      }

      var endpoint := "";
      if skill == Conversation { endpoint := ConversationEndpoint; }
      if skill == Image { endpoint := ImageEndpoint; }
      if skill == DocumentUrl { endpoint := SummarizeEndpoint; }

      sent := Some(Request(endpoint, "POST", map["Content-Type" := "application/json"], Obj(body)));
    }

    /** `handleSubmit` after the request ends: record the result or the
        error, and stop loading. */
    method FinishSubmit(reply: ServerReply)
      modifies this
      ensures !loading
      ensures ReplyOutcome(reply).Succeeded? ==> result == ReplyOutcome(reply).result && error == old(error)
      ensures ReplyOutcome(reply).Failed? ==> error == ReplyOutcome(reply).message && result == old(result)
      ensures skill == old(skill) && file == old(file) && filePreview == old(filePreview) && urlInput == old(urlInput)
    {
      match reply {
        case ReplyOk(json) =>
          result := json;
        case ReplyNotOk(text) =>
          error := if text == "" then ServerErrorMessage else text;
        case ReplyFailed(message) =>
          error := if message == "" then UnknownErrorMessage else message;
      }
      loading := false;
    }
  }
}
