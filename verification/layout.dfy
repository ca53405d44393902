/** The workspace organizer: the sidebar that lists the user's folders and
    documents, creates folders, expands a folder to show its documents, moves a
    document into a folder by drag and drop, and logs out. */
module Layout {
  import opened Outcomes
  import opened Navigation

  datatype Folder = Folder(id: int, name: string)

  /** `folderId == None` stands for both `null` and a missing key. */
  datatype Document = Document(id: int, fileName: string, folderId: Option<int>)

  /** The request a drop issues: move document `documentId` into folder `folderId`. */
  datatype MoveRequest = MoveRequest(folderId: int, documentId: int)

  /** A document is listed as unassigned when its `folder_id` is falsy:
      null, missing, or the number 0. */
  predicate Unfiled(d: Document)
  {
    d.folderId.None? || d.folderId.value == 0
  }

  /** The local update after a confirmed move: every document whose id is
      `documentId` gets `folderId`, every other document is kept as it was. */
  function MoveToFolder(docs: seq<Document>, documentId: int, folderId: int): (r: seq<Document>)
    ensures |r| == |docs|
    ensures forall i :: 0 <= i < |docs| && docs[i].id != documentId ==> r[i] == docs[i]
    ensures forall i :: 0 <= i < |docs| && docs[i].id == documentId ==>
      r[i].id == docs[i].id && r[i].fileName == docs[i].fileName && r[i].folderId == Some(folderId)
  {
    if docs == [] then []
    else
      var d := docs[0];
      [if d.id == documentId then d.(folderId := Some(folderId)) else d]
        + MoveToFolder(docs[1..], documentId, folderId)
  }

  /** The flat "unassigned" list: the documents with a falsy folder, in list order. */
  function Unassigned(docs: seq<Document>): (r: seq<Document>)
    ensures |r| <= |docs|
    ensures forall d :: d in r <==> d in docs && Unfiled(d)
  {
    if docs == [] then []
    else (if Unfiled(docs[0]) then [docs[0]] else []) + Unassigned(docs[1..])
  }

  /** Filtering distributes over concatenation, so the unassigned list keeps
      the relative order of the documents it takes. */
  lemma {:induction false} UnassignedConcat(a: seq<Document>, b: seq<Document>)
    ensures Unassigned(a + b) == Unassigned(a) + Unassigned(b)
  {
    if a == [] {
      assert a + b == b;
    } else {
      assert (a + b)[0] == a[0];
      assert (a + b)[1..] == a[1..] + b;
      UnassignedConcat(a[1..], b);
    }
  }

  /** After a confirmed move into a folder with a truthy id, the unassigned
      list is the old one without the moved document, in the old order. */
  lemma {:induction false} MoveLeavesUnassigned(docs: seq<Document>, documentId: int, folderId: int)
    requires folderId != 0
    ensures Unassigned(MoveToFolder(docs, documentId, folderId)) == RemoveId(Unassigned(docs), documentId)
  {
    if docs != [] {
      var m := MoveToFolder(docs, documentId, folderId);
      assert m[1..] == MoveToFolder(docs[1..], documentId, folderId);
      MoveLeavesUnassigned(docs[1..], documentId, folderId);
      var u := Unassigned(docs);
      if Unfiled(docs[0]) {
        assert u[0] == docs[0] && u[1..] == Unassigned(docs[1..]);
      } else {
        assert u == Unassigned(docs[1..]);
      }
    }
  }

  /** A move into folder 0 does not take the document out of the unassigned
      list: 0 is falsy, so the document is still listed there. */
  lemma MoveIntoFolderZeroStaysUnassigned(docs: seq<Document>, documentId: int, i: nat)
    requires i < |docs| && docs[i].id == documentId
    ensures MoveToFolder(docs, documentId, 0)[i] in Unassigned(MoveToFolder(docs, documentId, 0))
  {
  }

  /** The documents of `docs` whose id is not `documentId`, in order. */
  function RemoveId(docs: seq<Document>, documentId: int): seq<Document>
  {
    if docs == [] then []
    else (if docs[0].id == documentId then [] else [docs[0]]) + RemoveId(docs[1..], documentId)
  }

  /** What `fetchDocumentsForFolder` returns: the reply's list, or the empty
      list on a non-2xx reply or an error. */
  function FolderContents(reply: Reply<seq<Document>, ()>): (docs: seq<Document>)
    ensures reply.Ok? ==> docs == reply.payload
    ensures !reply.Ok? ==> docs == []
  {
    if reply.Ok? then reply.payload else []
  }

  /** The `status` field of the check-login reply body, which is read whatever
      the HTTP status; a thrown error has no body. */
  function LoginStatusField(reply: Reply<Option<string>, Option<string>>): Option<string>
  {
    match reply
    case Ok(status) => status
    case HttpError(_, _, status) => status
    case Thrown(_) => None
  }

  /** The text after "Error moving document: " when a move fails: the error
      body's `message` when it is a non-empty string, else the status text;
      for a thrown error, its message. */
  function MoveErrorDetail(reply: Reply<(), Option<string>>): string
  {
    match reply
    case Ok(_) => ""
    case HttpError(_, statusText, message) =>
      if message.Some? && message.value != "" then message.value else statusText
    case Thrown(m) => m
  }

  /** The status after a folder-creation request that did not succeed. */
  function CreateFolderError(reply: Reply<Folder, ()>): string
  {
    match reply
    case Thrown(m) => m
    case _ => "Folder creation failed"
  }

  /** The navigation after a document's content was fetched: to the chat view
      with the object URL of the content and the document's id. */
  function DocumentNavigation(documentId: int, fileUrl: string): Nav
  {
    Navigate(DocumentChatRoute, RouteState(Some(fileUrl), Some(documentId), None))
  }

  class Workspace {
    var folders: seq<Folder>
    var documents: seq<Document>
    var newFolderName: string
    var statusMessage: string
    var isModalOpen: bool
    var isLoggedIn: bool
    var expandedFolders: map<int, bool>
    var draggedDocument: Option<Document>
    var folderDocuments: map<int, seq<Document>>

    /** Every folder shown expanded has a cache entry: the cache is written
        whenever a folder is expanded. */
    ghost predicate Valid()
      reads this
    {
      forall k :: k in expandedFolders && expandedFolders[k] ==> k in folderDocuments
    }

    constructor ()
      ensures Valid()
      ensures folders == [] && documents == [] && newFolderName == "" && statusMessage == ""
      ensures !isModalOpen && !isLoggedIn && draggedDocument == None
      ensures expandedFolders == map[] && folderDocuments == map[]
    {
      folders, documents := [], [];
      newFolderName, statusMessage := "", "";
      isModalOpen, isLoggedIn := false, false;
      expandedFolders, draggedDocument, folderDocuments := map[], None, map[];
    }

    /** A folder key that was never toggled counts as collapsed. */
    predicate IsExpanded(folderId: int)
      reads this
    {
      folderId in expandedFolders && expandedFolders[folderId]
    }

    /** The documents listed under a folder: its cached list while it is
        expanded (an empty list before the first fetch), nothing otherwise. */
    function ShownUnder(folderId: int): (r: Option<seq<Document>>)
      reads this
      ensures r == None <==> !IsExpanded(folderId)
      ensures Valid() && IsExpanded(folderId) ==> r == Some(folderDocuments[folderId])
    {
      if !IsExpanded(folderId) then None
      else if folderId in folderDocuments then Some(folderDocuments[folderId])
      else Some([])
    }

    /** The login check made on mount. `loadLists` says whether the effect
        keyed on `isLoggedIn` then fetches the folder and document lists. */
    method CheckLoginStatus(reply: Reply<Option<string>, Option<string>>) returns (loadLists: bool)
      modifies this`isLoggedIn
      ensures isLoggedIn <==> !reply.Thrown? && LoginStatusField(reply) == Some("Logged in")
      ensures loadLists <==> isLoggedIn && !old(isLoggedIn)
    {
      var was := isLoggedIn;
      isLoggedIn := LoginStatusField(reply) == Some("Logged in");
      loadLists := isLoggedIn && !was;
    }

    /** Full replacement on a 2xx reply; otherwise the list is left as it was. */
    method FetchFolders(reply: Reply<seq<Folder>, ()>)
      modifies this`folders
      ensures reply.Ok? ==> folders == reply.payload
      ensures !reply.Ok? ==> folders == old(folders)
    {
      if reply.Ok? {
        folders := reply.payload;
      }
    }

    /** Full replacement on a 2xx reply; otherwise the list is left as it was. */
    method FetchDocuments(reply: Reply<seq<Document>, ()>)
      modifies this`documents
      ensures reply.Ok? ==> documents == reply.payload
      ensures !reply.Ok? ==> documents == old(documents)
    {
      if reply.Ok? {
        documents := reply.payload;
      }
    }

    /** Typing in the folder-name field of the creation dialog. */
    method EditFolderName(text: string)
      modifies this`newFolderName
      ensures newFolderName == text
    {
      newFolderName := text;
    }

    /** "Create New Folder": opens the dialog when logged in, else goes to the
        registration view. */
    method CreateFolderClick() returns (nav: Option<Nav>)
      modifies this`isModalOpen
      ensures isLoggedIn ==> isModalOpen && nav == None
      ensures !isLoggedIn ==> isModalOpen == old(isModalOpen) && nav == Some(Navigate(RegisterRoute, NoState))
    {
      if isLoggedIn {
        isModalOpen := true;
        nav := None;
      } else {
        nav := Some(Navigate(RegisterRoute, NoState));
      }
    }

    /** "Cancel" in the creation dialog. */
    method CancelModal()
      modifies this`isModalOpen
      ensures !isModalOpen
    {
      isModalOpen := false;
    }

    /** "Add File": the upload view when logged in, else registration. Changes nothing. */
    method NavigateHome() returns (nav: Nav)
      ensures nav.state == NoState
      ensures nav.to == HomeRoute <==> isLoggedIn
      ensures nav.to != DocumentChatRoute
    {
      nav := if isLoggedIn then Navigate(HomeRoute, NoState) else Navigate(RegisterRoute, NoState);
    }

    /** Folder creation. An empty name is rejected before any request; `request`
        is the name posted, if one was. */
    method CreateFolder(reply: Reply<Folder, ()>) returns (request: Option<string>)
      modifies this`folders, this`newFolderName, this`isModalOpen, this`statusMessage
      ensures request == if old(newFolderName) == "" then None else Some(old(newFolderName))
      ensures request == None ==>
        folders == old(folders) && newFolderName == old(newFolderName) && isModalOpen == old(isModalOpen)
        && statusMessage == "Folder name cannot be empty."
      ensures request != None && reply.Ok? ==>
        folders == old(folders) + [reply.payload] && newFolderName == "" && !isModalOpen
        && statusMessage == "Folder created successfully!"
      ensures request != None && !reply.Ok? ==>
        folders == old(folders) && newFolderName == old(newFolderName) && isModalOpen == old(isModalOpen)
        && statusMessage == CreateFolderError(reply)
    {
      if newFolderName == "" {
        statusMessage := "Folder name cannot be empty.";
        return None;
      }
      request := Some(newFolderName);
      if reply.Ok? {
        folders := folders + [reply.payload];
        newFolderName := "";
        isModalOpen := false;
        statusMessage := "Folder created successfully!";
      } else {
        statusMessage := CreateFolderError(reply);
      }
    }

    /** Clicking a folder header flips its expanded flag. Only a folder that was
        collapsed before the click is fetched, and its cache entry is then
        overwritten with the result (the empty list on any failure). */
    method ToggleFolderExpansion(folderId: int, reply: Reply<seq<Document>, ()>) returns (fetched: bool)
      requires Valid()
      modifies this`expandedFolders, this`folderDocuments
      ensures Valid()
      ensures fetched == !old(IsExpanded(folderId))
      ensures IsExpanded(folderId) == fetched
      ensures expandedFolders == old(expandedFolders)[folderId := fetched]
      ensures fetched ==> folderDocuments == old(folderDocuments)[folderId := FolderContents(reply)]
      ensures !fetched ==> folderDocuments == old(folderDocuments)
      ensures fetched ==> ShownUnder(folderId) == Some(FolderContents(reply))
      ensures !fetched ==> ShownUnder(folderId) == None
    {
      var wasExpanded := IsExpanded(folderId);
      expandedFolders := expandedFolders[folderId := !wasExpanded];
      fetched := !wasExpanded;
      if fetched {
        folderDocuments := folderDocuments[folderId := FolderContents(reply)];
      }
    }

    /** Starting to drag an unassigned document fills the single drag slot. */
    method DragStart(d: Document)
      modifies this`draggedDocument
      ensures draggedDocument == Some(d)
    {
      draggedDocument := Some(d);
    }

    /** Dropping on a folder. With nothing dragged this does nothing. Otherwise
        the move is requested; only a 2xx reply changes the document list, and
        the per-folder cache is never touched. */
    method Drop(folderId: int, reply: Reply<(), Option<string>>) returns (request: Option<MoveRequest>)
      modifies this`documents, this`draggedDocument, this`statusMessage
      ensures old(draggedDocument) == None ==>
        request == None && documents == old(documents) && draggedDocument == None
        && statusMessage == old(statusMessage)
      ensures old(draggedDocument) != None ==>
        request == Some(MoveRequest(folderId, old(draggedDocument).value.id))
      ensures request != None && reply.Ok? ==>
        documents == MoveToFolder(old(documents), old(draggedDocument).value.id, folderId)
        && draggedDocument == None && statusMessage == "Document moved successfully!"
      ensures request != None && reply.Ok? && folderId != 0 ==>
        Unassigned(documents) == RemoveId(Unassigned(old(documents)), old(draggedDocument).value.id)
      ensures request != None && !reply.Ok? ==>
        documents == old(documents) && draggedDocument == old(draggedDocument)
        && statusMessage == "Error moving document: " + MoveErrorDetail(reply)
    {
      request := None;
      if draggedDocument != None {
        var moving := draggedDocument.value;
        request := Some(MoveRequest(folderId, moving.id));
        if reply.Ok? {
          if folderId != 0 {
            MoveLeavesUnassigned(documents, moving.id, folderId);
          }
          documents := MoveToFolder(documents, moving.id, folderId);
          draggedDocument := None;
          statusMessage := "Document moved successfully!";
        } else {
          statusMessage := "Error moving document: " + MoveErrorDetail(reply);
        }
      }
    }

    /** Clicking a document fetches its content and, on a 2xx reply, opens the
        chat view on it. `reply`'s payload is the object URL made from the
        fetched content. Changes no field. */
    method DocumentClick(documentId: int, reply: Reply<string, ()>) returns (nav: Option<Nav>)
      ensures nav != None <==> reply.Ok?
      ensures reply.Ok? ==> nav == Some(Navigate(DocumentChatRoute, RouteState(Some(reply.payload), Some(documentId), None)))
    {
      if reply.Ok? {
        nav := Some(DocumentNavigation(documentId, reply.payload));
      } else {
        nav := None;
      }
    }

    /** Logout: a 2xx reply logs out and returns to the upload view (the page is
        also reloaded); any failure changes nothing. */
    method Logout(reply: Reply<(), ()>) returns (nav: Option<Nav>)
      modifies this`isLoggedIn
      ensures reply.Ok? ==> !isLoggedIn && nav == Some(Navigate(HomeRoute, NoState))
      ensures !reply.Ok? ==> isLoggedIn == old(isLoggedIn) && nav == None
    {
      if reply.Ok? {
        isLoggedIn := false;
        nav := Some(Navigate(HomeRoute, NoState));
      } else {
        nav := None;
      }
    }
  }
}
