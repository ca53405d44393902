/** The document Q&A view: shows one document's content and keeps an
    append-only transcript of the questions asked about it. */
module DocumentChat {
  import opened Outcomes
  import opened Navigation

  /** How a fetched content type is displayed. */
  datatype ContentKind = TextKind | PdfKind | UnsupportedKind(contentType: string)

  /** What the viewer pane holds once content has loaded. */
  datatype Content =
    | TextContent(text: string)
    | PdfViewer(src: string)
    | UnsupportedNotice(contentType: string)

  /** A 2xx reply to the content fetch: its `Content-Type` header (absent is
      `None`) and its body read as text. */
  datatype FileResponse = FileResponse(contentType: Option<string>, body: string)

  /** What the viewer pane shows. */
  datatype Pane = Placeholder | Shows(content: Content)

  datatype QAPair = QAPair(question: string, answer: string)

  datatype QueryRequest = QueryRequest(documentId: int, question: string)

  const ErrorAnswer := "Error fetching answer, please try again."

  /** A `text/` prefix wins, then exactly `application/pdf`; anything else is
      unsupported and keeps its type for the notice. */
  function Classify(contentType: string): (k: ContentKind)
    ensures k == TextKind <==> "text/" <= contentType
    ensures k == PdfKind <==> contentType == "application/pdf"
    ensures k.UnsupportedKind? ==> k.contentType == contentType
  {
    if "text/" <= contentType then
      assert contentType[0] == 't' != "application/pdf"[0];
      TextKind
    else if contentType == "application/pdf" then PdfKind
    else UnsupportedKind(contentType)
  }

  /** A file URL is used only when it is truthy (present and non-empty). */
  predicate HasUrl(fileUrl: Option<string>)
  {
    fileUrl.Some? && fileUrl.value != ""
  }

  /** The content loaded on mount. Nothing loads without a URL, on a non-2xx
      reply, on a thrown error, or when the reply has no content type (reading
      a prefix of a missing header raises, and the error is only logged). */
  function LoadContent(fileUrl: Option<string>, reply: Reply<FileResponse, ()>): (c: Option<Content>)
    ensures c.Some? <==> HasUrl(fileUrl) && reply.Ok? && reply.payload.contentType.Some?
    ensures c.Some? ==> (c.value.TextContent? <==> "text/" <= reply.payload.contentType.value)
    ensures c.Some? && c.value.TextContent? ==> c.value.text == reply.payload.body
    ensures c.Some? ==> (c.value.PdfViewer? <==> reply.payload.contentType.value == "application/pdf")
    ensures c.Some? && "text/" <= reply.payload.contentType.value ==>
      c.value == TextContent(reply.payload.body)
    ensures c.Some? && reply.payload.contentType.value == "application/pdf" ==>
      c.value == PdfViewer(fileUrl.value)
    ensures c.Some? && !("text/" <= reply.payload.contentType.value)
                    && reply.payload.contentType.value != "application/pdf" ==>
      c.value == UnsupportedNotice(reply.payload.contentType.value)
  {
    if !HasUrl(fileUrl) || !reply.Ok? || reply.payload.contentType.None? then None
    else
      var contentType := reply.payload.contentType.value;
      match Classify(contentType)
      case TextKind => Some(TextContent(reply.payload.body))
      case PdfKind => Some(PdfViewer(fileUrl.value))
      case UnsupportedKind(t) => Some(UnsupportedNotice(t))
  }

  /** The placeholder shows whenever the content is falsy: nothing loaded, or
      a text document whose text is empty. */
  function PaneFor(content: Option<Content>): (p: Pane)
    ensures p == Placeholder <==> content == None || content == Some(TextContent(""))
    ensures p != Placeholder ==> p.content == content.value
  {
    match content
    case None => Placeholder
    case Some(c) => if c == TextContent("") then Placeholder else Shows(c)
  }

  /** A submission is sent only with a non-empty question and a truthy
      document id (present and not 0). */
  predicate Accepts(userInput: string, documentId: Option<int>)
  {
    userInput != "" && documentId.Some? && documentId.value != 0
  }

  /** The answer recorded for a settled query: the reply's answer, or the fixed
      error text on a non-2xx reply or a thrown error. */
  function AnswerFor(reply: Reply<string, ()>): string
  {
    if reply.Ok? then reply.payload else ErrorAnswer
  }

  class ChatSession {
    var fileUrl: Option<string>
    var documentId: Option<int>
    var fileContent: Option<Content>
    var questions: seq<string>
    var userInput: string
    var qaPairs: seq<QAPair>

    /** Every accepted question has exactly one transcript entry, in the order
        the questions were submitted. */
    ghost predicate Valid()
      reads this
    {
      |qaPairs| == |questions| && forall i :: 0 <= i < |qaPairs| ==> qaPairs[i].question == questions[i]
    }

    /** Opening the view binds the URL and document id found in the navigation
        state; every other key is ignored. */
    constructor (state: RouteState)
      ensures fileUrl == state.fileUrl && documentId == state.documentId
      ensures fileContent == None && questions == [] && userInput == "" && qaPairs == []
      ensures Valid()
    {
      fileUrl, documentId := state.fileUrl, state.documentId;
      fileContent, questions, userInput, qaPairs := None, [], "", [];
    }

    function ViewerPane(): Pane
      reads this
    {
      PaneFor(fileContent)
    }

    /** A sidebar click while the view stays mounted: the URL and document id
        are read again from the new navigation state, and the transcript, the
        recorded questions, the input and the shown content carry over. The
        content fetch runs again exactly when the URL changed; until it
        succeeds the previous document's content stays on screen, and later
        questions are sent under the new id. */
    method Rebind(state: RouteState) returns (refetch: bool)
      requires Valid()
      modifies this`fileUrl, this`documentId
      ensures Valid()
      ensures fileUrl == state.fileUrl && documentId == state.documentId
      ensures refetch <==> state.fileUrl != old(fileUrl)
      ensures ViewerPane() == old(ViewerPane())
    {
      refetch := state.fileUrl != fileUrl;
      fileUrl, documentId := state.fileUrl, state.documentId;
    }

    /** The content fetch made on mount and again whenever the URL changes;
        `fetched` says whether a request was made at all. */
    method FetchFileContent(reply: Reply<FileResponse, ()>) returns (fetched: bool)
      modifies this`fileContent
      ensures fetched <==> HasUrl(fileUrl)
      ensures LoadContent(fileUrl, reply).Some? ==> fileContent == LoadContent(fileUrl, reply)
      ensures LoadContent(fileUrl, reply).None? ==> fileContent == old(fileContent) && ViewerPane() == old(ViewerPane())
    {
      fetched := HasUrl(fileUrl);
      var loaded := LoadContent(fileUrl, reply);
      if loaded.Some? {
        fileContent := loaded;
      }
    }

    /** Typing in the question field. */
    method EditQuestion(text: string)
      modifies this`userInput
      ensures userInput == text
    {
      userInput := text;
    }

    /** Submitting the question in the input field. A rejected submission sends
        nothing and changes nothing. An accepted one records the question, sends
        it, appends exactly one transcript entry for it whatever the outcome,
        and clears the input. */
    method SubmitQuestion(reply: Reply<string, ()>) returns (request: Option<QueryRequest>)
      requires Valid()
      modifies this`questions, this`qaPairs, this`userInput
      ensures Valid()
      ensures request == None <==> !Accepts(old(userInput), documentId)
      ensures request == None ==>
        questions == old(questions) && qaPairs == old(qaPairs) && userInput == old(userInput)
      ensures request != None ==>
        request.value == QueryRequest(documentId.value, old(userInput))
        && questions == old(questions) + [old(userInput)]
        && qaPairs == old(qaPairs) + [QAPair(old(userInput), AnswerFor(reply))]
        && userInput == ""
    {
      if !Accepts(userInput, documentId) {
        return None;
      }
      var question := userInput;
      questions := questions + [question];
      request := Some(QueryRequest(documentId.value, question));
      qaPairs := qaPairs + [QAPair(question, AnswerFor(reply))];
      userInput := "";
    }
  }
}
