/** The upload view: picks one file of an accepted type and uploads it. */
module Landing {
  import opened Outcomes
  import opened Navigation

  /** A picked file, by the two things the view looks at. */
  datatype File = File(name: string, mimeType: string)

  /** The body of a 2xx upload reply. */
  datatype UploadResult = UploadResult(message: string, fileContent: string)

  /** PDF, PowerPoint and CSV, by MIME type. */
  const ValidTypes: seq<string> := ["application/pdf", "application/vnd.ms-powerpoint", "text/csv"]

  const UnsupportedTypeMessage := "Unsupported file type. Please upload PDF, PPT, or CSV files."

  /** Where a successful upload goes: the chat view, carrying only the
      uploaded file's content under `fileContent`. */
  function UploadNavigation(result: UploadResult): (nav: Nav)
    ensures nav.to == DocumentChatRoute
    ensures nav.state.fileUrl == None && nav.state.documentId == None
  {
    Navigate(DocumentChatRoute, RouteState(None, None, Some(result.fileContent)))
  }

  class UploadForm {
    var selectedFile: Option<File>
    var uploadStatus: string

    constructor ()
      ensures selectedFile == None && uploadStatus == ""
    {
      selectedFile, uploadStatus := None, "";
    }

    /** A change of the file input. No file: nothing changes. An accepted type
        is selected and clears the status; any other type keeps the previous
        selection and reports the type as unsupported. */
    method FileChange(file: Option<File>)
      modifies this`selectedFile, this`uploadStatus
      ensures file == None ==> selectedFile == old(selectedFile) && uploadStatus == old(uploadStatus)
      ensures file != None && file.value.mimeType in ValidTypes ==> selectedFile == file && uploadStatus == ""
      ensures file != None && file.value.mimeType !in ValidTypes ==>
        selectedFile == old(selectedFile) && uploadStatus == UnsupportedTypeMessage
    {
      if file != None {
        if file.value.mimeType in ValidTypes {
          selectedFile := file;
          uploadStatus := "";
        } else {
          uploadStatus := UnsupportedTypeMessage;
        }
      }
    }

    /** "Upload". Nothing selected: no request. Otherwise the selected file is
        posted; success reports the reply's message, clears the selection and
        goes to the chat view (the page is also reloaded); any failure keeps
        the selection. */
    method Upload(reply: Reply<UploadResult, ()>) returns (request: Option<File>, nav: Option<Nav>)
      modifies this`selectedFile, this`uploadStatus
      ensures request == old(selectedFile)
      ensures request == None ==> selectedFile == None && uploadStatus == "No file selected" && nav == None
      ensures request != None && reply.Ok? ==>
        uploadStatus == reply.payload.message && selectedFile == None
        && nav == Some(UploadNavigation(reply.payload))
      ensures request != None && !reply.Ok? ==>
        uploadStatus == "Upload failed. Please try again." && selectedFile == old(selectedFile) && nav == None
    {
      request := selectedFile;
      nav := None;
      if selectedFile == None {
        uploadStatus := "No file selected";
        return;
      }
      if reply.Ok? {
        uploadStatus := reply.payload.message;
        nav := Some(UploadNavigation(reply.payload));
        selectedFile := None;
      } else {
        uploadStatus := "Upload failed. Please try again.";
      }
    }
  }
}
