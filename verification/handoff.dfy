/** How the chat view is reached: which navigations bind a document to it. */
module Handoff {
  import opened Outcomes
  import opened Navigation
  import Layout
  import Landing
  import DocumentChat

  /** After a successful upload the chat view is opened with neither a file URL
      nor a document id (the upload passes only `fileContent`, which the chat
      view does not read): no content is fetched, the viewer shows the
      placeholder, and every question is refused until a sidebar click
      rebinds the view. */
  lemma UploadOpensUnboundChat(result: Landing.UploadResult, question: string, reply: Reply<DocumentChat.FileResponse, ()>)
    ensures var state := Landing.UploadNavigation(result).state;
      && !DocumentChat.HasUrl(state.fileUrl)
      && DocumentChat.LoadContent(state.fileUrl, reply) == None
      && DocumentChat.PaneFor(DocumentChat.LoadContent(state.fileUrl, reply)) == DocumentChat.Placeholder
      && !DocumentChat.Accepts(question, state.documentId)
  {
  }

  /** Opening a document from the sidebar binds it: with a non-zero id and the
      (never empty) object URL of its content, a question is accepted exactly
      when it is non-empty, and a reply with a content type loads content. */
  lemma DocumentClickBindsDocument(documentId: int, fileUrl: string, question: string, file: DocumentChat.FileResponse)
    requires documentId != 0 && fileUrl != ""
    ensures var state := Layout.DocumentNavigation(documentId, fileUrl).state;
      && (DocumentChat.Accepts(question, state.documentId) <==> question != "")
      && (DocumentChat.LoadContent(state.fileUrl, Ok(file)).Some? <==> file.contentType.Some?)
  {
  }
}
