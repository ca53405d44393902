# chatfront — a Dafny model of the client-side state machines

chatfront is a React front end for uploading documents, organizing them into
folders, and asking questions about a document through a remote backend. Each
of its components holds a few state fields. Each event handler issues at most
one backend request and updates those fields from the reply. This project
models every component in the same way:

- a component is a `class` whose fields are the component's state;
- an event handler is a method, and the settled backend outcome is one of its
  parameters: `Reply<P, E> = Ok(payload) | HttpError(status, statusText, body) | Thrown(message)`;
- a request the handler would send is returned as a value (`request`), and so is
  a navigation (`Nav`: a route plus the `location.state` it carries);
- each method's `modifies this`field` frame lists exactly the fields it may
  change, so "nothing else changes" is part of every contract.

The modules:

- `Outcomes`: `Option` and `Reply`.
- `Navigation`: the routes `/`, `/register` and `/document-chat`, and the navigation state.
- `Layout`: the workspace organizer. It holds the folder list, the document
  list, the per-folder expanded flags and document cache, the drag slot, the
  creation dialog, the login flag and the status line. The pure parts are
  `MoveToFolder` (the local update after a confirmed move) and `Unassigned`
  (the flat list of documents with a falsy `folder_id`). Both come with
  inductive lemmas about order and about what a move does to the unassigned list.
- `DocumentChat`: the Q&A session. It covers content-type classification, the
  content loaded on mount, the viewer pane, and the append-only transcript.
  `ChatSession.Valid()` is the transcript invariant: every accepted question has
  exactly one entry, in submission order.
- `Register`: the four-mode authentication form. It covers the mode precedence,
  the heading, handler and label selections, the field edits, the submit/complete
  cycle guarded by `loading` (the posted body is what the handler captured at
  submit time), and the toggle links.
- `Landing`: the upload form. It covers the MIME-type whitelist and the upload outcome.
- `ChangePassword`: the password-change form. It covers the session-id check,
  the confirm-match check and the outcome messages.
- `Handoff`: the cross-component facts about how the chat view is reached.

JavaScript truthiness is written out wherever the code tests a value:

- a `folder_id` is falsy when it is null, missing or `0`;
- a `documentId` is falsy when it is missing or `0`;
- a `fileUrl` or a `session_id` is falsy when it is missing or `""`;
- loaded text content `""` is falsy, so an empty text document leaves the viewer on its placeholder.

A response without a `Content-Type` header makes `contentType.startsWith` raise.
The error is caught and only logged, so no content loads.

Behaviour of the code that is easy to misread, which the model follows:

- A failed drop keeps the drag slot. Only a successful move clears it.
- When a folder-creation request throws, the status line shows the thrown
  error's message. `'Folder creation failed'` is shown only for a non-2xx reply.
- The per-folder cache starts as an empty array but is used as a dictionary.
  It is modelled as an empty map.
- A drop never updates the per-folder cache (it is not in `Drop`'s frame). An
  expanded folder's list therefore stays stale until the folder is collapsed
  and expanded again.

One cross-component observation is stated as a lemma, `Handoff.UploadOpensUnboundChat`:

- After a successful upload, `Landing.js` navigates with `{ fileContent }` only.
- The chat view reads only `fileUrl` and `documentId`.
- That view therefore loads no content, shows the placeholder, and refuses every question until a sidebar click rebinds it.
- Only the sidebar's document click (`Handoff.DocumentClickBindsDocument`) binds a document to the chat view.
- A sidebar click while the chat view is already open does not remount it (`ChatSession.Rebind`): the route element stays the same, so the transcript carries over, the content is fetched again only when the URL changed, and the previous document stays on screen until that fetch succeeds.

## Model

| member | source | states |
|---|---|---|
| `Layout.MoveToFolder` | src/components/Layout.js:191-195 | Keeps the length and order. Documents whose id equals the moved id get exactly the new `folder_id`; id and file name are kept. Every other document is unchanged. |
| `Layout.Unassigned` | src/components/Layout.js:225 | A document is in the unassigned list iff it is in the list and its `folder_id` is null, missing or 0. The result is no longer than the input. |
| `Layout.UnassignedConcat` | src/components/Layout.js:225 | Filtering distributes over concatenation, so the unassigned list keeps the documents' original relative order. |
| `Layout.MoveLeavesUnassigned` | src/components/Layout.js:191-195 | After a move into a folder with a non-zero id, the unassigned list is exactly the old one with the moved id removed, in the old order. |
| `Layout.MoveIntoFolderZeroStaysUnassigned` | src/components/Layout.js:225 | A document moved into folder 0 is still listed as unassigned, because 0 is falsy. |
| `Layout.Workspace.constructor` | src/components/Layout.js:6-14 | The initial state: empty lists, name and status; dialog closed; logged out; nothing dragged; no expanded flags or cache entries. |
| `Layout.Workspace.CheckLoginStatus` | src/components/Layout.js:19-38 | Logged in iff the reply body's `status` is exactly `"Logged in"`, whatever the HTTP status. A thrown error gives logged out. The lists are fetched exactly when the flag turns true. |
| `Layout.Workspace.FetchFolders` | src/components/Layout.js:41-53 | A 2xx reply replaces the whole folder list. A non-2xx reply or an error leaves it unchanged. No other field changes. |
| `Layout.Workspace.FetchDocuments` | src/components/Layout.js:56-68 | A 2xx reply replaces the whole document list. A non-2xx reply or an error leaves it unchanged. No other field changes. |
| `Layout.Workspace.EditFolderName` | src/components/Layout.js:302 | The name field takes the typed text. Nothing else changes. |
| `Layout.Workspace.CreateFolderClick` | src/components/Layout.js:209-215 | Logged in: the dialog opens and there is no navigation. Logged out: the dialog is unchanged and the view goes to `/register`. |
| `Layout.Workspace.CancelModal` | src/components/Layout.js:307 | The dialog closes. Nothing else changes. |
| `Layout.Workspace.NavigateHome` | src/components/Layout.js:217-223 | Goes to `/` iff logged in, else to `/register`, and never to the chat view. State is unchanged. |
| `Layout.Workspace.CreateFolder` | src/components/Layout.js:87-115 | An empty name sends no request and sets `'Folder name cannot be empty.'`; folders, name and dialog are unchanged. Success appends the returned folder after the old ones, clears the name, closes the dialog and reports success. Failure keeps folders, name and dialog and sets `'Folder creation failed'` (non-2xx) or the thrown message. |
| `Layout.Workspace.ToggleFolderExpansion` | src/components/Layout.js:161-174 | Flips only this folder's flag; an absent key counts as collapsed. The fetch (lines 71-85) happens iff the folder was collapsed. Only then is this folder's cache entry overwritten, with the reply's list or `[]` on any failure. Collapsing writes no cache entry. Keeps the invariant that every expanded folder has a cache entry. |
| `Layout.FolderContents` | src/components/Layout.js:71-85 | The folder's list is the reply's list on a 2xx reply, and `[]` on a non-2xx reply or an error. |
| `Layout.Workspace.ShownUnder` | src/components/Layout.js:250-252 | A folder shows a document list iff it is expanded; under the invariant, that list is exactly its cache entry. |
| `Layout.Workspace.DragStart` | src/components/Layout.js:176-178 | The drag slot holds the dragged document. |
| `Layout.Workspace.Drop` | src/components/Layout.js:180-208 | With nothing dragged: no request and no change. Otherwise a move of the dragged id into the target folder is requested. On 2xx: documents become `MoveToFolder` of the old list, the unassigned list loses exactly that id (for a non-zero folder), the slot is cleared and success is reported. On failure: documents and slot are unchanged and the status is `Error moving document: ` plus the body's message, the status text, or the thrown message. The folder cache is never written. |
| `Layout.Workspace.DocumentClick` | src/components/Layout.js:118-136 | Navigates iff the content fetch succeeds, to the chat view with `{fileUrl, documentId}`. No field changes. |
| `Layout.Workspace.Logout` | src/components/Layout.js:142-159 | On 2xx: logged out, and the view goes to `/`. On any failure: the login flag is unchanged and there is no navigation. |
| `DocumentChat.Classify` | src/components/Document/DocumentChat.js:19-27 | Text iff the type starts with `text/`. Viewer iff the type is exactly `application/pdf`. Otherwise unsupported, carrying the type string. |
| `DocumentChat.LoadContent` | src/components/Document/DocumentChat.js:13-38 | Content loads iff the URL is truthy, the reply is 2xx and it has a content type. When it loads: it is text iff the type starts with `text/`, and then it is exactly the body; it is a viewer iff the type is exactly `application/pdf`, and then it shows the URL; otherwise it is an unsupported notice carrying the type. |
| `DocumentChat.PaneFor` | src/components/Document/DocumentChat.js:85-89 | The placeholder shows iff nothing loaded or the loaded text is empty. Otherwise the pane shows the loaded content. |
| `DocumentChat.ChatSession.constructor` | src/components/Document/DocumentChat.js:6-11 | Binds `fileUrl` and `documentId` from the navigation state and ignores every other key. No content, empty lists, empty input. |
| `DocumentChat.ChatSession.Rebind` | src/components/Document/DocumentChat.js:7-13 | A navigation to the chat view while it is mounted (from `Layout.js:129`) re-reads the URL and id from the new state. The fetch is due again iff the URL changed (the effect is keyed on `fileUrl`). Transcript, questions, input and the shown pane carry over, and the invariant is kept. |
| `DocumentChat.ChatSession.FetchFileContent` | src/components/Document/DocumentChat.js:14-37 | The fetch happens iff the URL is truthy. The content becomes the loaded content when there is some. Otherwise the content and the pane stay exactly as they were. |
| `DocumentChat.ChatSession.EditQuestion` | src/components/Document/DocumentChat.js:109 | The input takes the typed text. Nothing else changes. |
| `DocumentChat.ChatSession.SubmitQuestion` | src/components/Document/DocumentChat.js:40-77 | No request iff the input is empty or no truthy document id is bound; then questions, transcript and input are unchanged. Otherwise the question is appended to `questions` and sent. The transcript grows by exactly one entry, holding this question and the reply's answer (or the fixed error text on any failure). The input is cleared. The invariant that questions and transcript entries correspond one to one, in order, is kept. |
| `Register.ModeOf` | src/components/User/Register.js:109-115 | The single precedence: registering with OTP pending gives OTP check; registering otherwise gives sign-up; not registering, resetting gives reset request, else login. Each case is stated both ways. |
| `Register.Heading` | src/components/User/Register.js:108-116 | The heading is the mode's heading under that precedence. |
| `Register.SubmitHandler` | src/components/User/Register.js:117-126 | The form's handler is the mode's handler under the same precedence. |
| `Register.ButtonLabel` | src/components/User/Register.js:169-179 | `Processing...` while loading; otherwise the mode's label under the same precedence. |
| `Register.LinksShown` | src/components/User/Register.js:182-233 | The OTP check shows only the OTP-phase login link; sign-up shows only its login link; the reset request shows only "Back to login"; the login form shows exactly "Register here" and "Forgot Password?". |
| `Register.RequestFor` | src/components/User/Register.js:25-103 | Each handler (bodies at lines 31, 51, 73 and 93) posts its own body kind, and the body carries the current email; registration also the name and password, OTP verification the OTP, login the password. |
| `Register.AuthForm.constructor` | src/components/User/Register.js:7-15 | Starts on the sign-up form, not loading, with empty fields and message. |
| `Register.AuthForm.EditName` | src/components/User/Register.js:134 | The name field takes the typed text. Nothing else changes. |
| `Register.AuthForm.EditEmail` | src/components/User/Register.js:144 | The email field takes the typed text. Nothing else changes. |
| `Register.AuthForm.EditPassword` | src/components/User/Register.js:164 | The password field takes the typed text. Nothing else changes. |
| `Register.AuthForm.EditOtp` | src/components/User/Register.js:154 | The OTP field takes the typed text. Nothing else changes. |
| `Register.AuthForm.Submit` | src/components/User/Register.js:117-179 | While loading, the button is disabled and nothing happens. Otherwise `loading` turns on and the mode's handler posts the body built from the current fields, which is recorded as the request in flight. At most one request is in flight. |
| `Register.AuthForm.FinishRegister` | src/components/User/Register.js:25-43 | Success sets the reply's message, enters the OTP phase and clears name, password and OTP; the email becomes the one that was posted, even if it was edited while the request was in flight. Failure sets `'Registration failed. Please try again.'`, changes no field or mode flag. `loading` ends false either way. |
| `Register.AuthForm.FinishOtpVerification` | src/components/User/Register.js:45-65 | The reply's message is shown. Only `success` leaves the registering and OTP modes and clears all four fields. Otherwise the modes and fields are unchanged, and a failure sets the fixed message. `loading` ends false. |
| `Register.AuthForm.FinishLogin` | src/components/User/Register.js:67-85 | Success sets the message, clears all fields and goes to `/`. Failure sets `'Login failed. Please try again.'` and keeps the fields. `loading` ends false. |
| `Register.AuthForm.FinishForgotPassword` | src/components/User/Register.js:87-103 | Success sets the message and clears all fields. Failure sets the fixed message and keeps them. `loading` ends false. |
| `Register.AuthForm.Follow` | src/components/User/Register.js:183-232 | The OTP-phase login link clears registering and OTP. The sign-up login link clears registering. Back-to-login clears resetting. "Register here" sets registering. "Forgot Password?" sets resetting. Every login link ends on the login form, and "Forgot Password?" ends on the reset form. |
| `Landing.UploadNavigation` | src/components/Home/Landing.js:47 | A successful upload goes to the chat view carrying neither a file URL nor a document id. |
| `Landing.UploadForm.constructor` | src/components/Home/Landing.js:6-7 | No file is selected and the status is empty. |
| `Landing.UploadForm.FileChange` | src/components/Home/Landing.js:10-21 | No file: nothing changes. A PDF, PowerPoint or CSV file is selected and the status is cleared. Any other type keeps the previous selection and sets the unsupported-type message. |
| `Landing.UploadForm.Upload` | src/components/Home/Landing.js:23-53 | Nothing selected: no request and `'No file selected'`. Otherwise the selected file is posted. Success sets the reply's message, clears the selection and navigates. Any failure sets `'Upload failed. Please try again.'` and keeps the selection. |
| `ChangePassword.ErrorFor` | src/components/User/ChangePassword.js:41-43 | The error is the reply's non-empty `detail` when there is one, and the fixed fallback otherwise (always for a thrown error). It is never empty. |
| `ChangePassword.PasswordReset.constructor` | src/components/User/ChangePassword.js:6-21 | A truthy `session_id` is stored with no error. Otherwise the id stays empty and the invalid-link error is set. |
| `ChangePassword.PasswordReset.EditPassword` | src/components/User/ChangePassword.js:58 | The password field takes the typed text. |
| `ChangePassword.PasswordReset.EditConfirmPassword` | src/components/User/ChangePassword.js:68 | The confirmation field takes the typed text. |
| `ChangePassword.PasswordReset.ChangePassword` | src/components/User/ChangePassword.js:23-45 | Message and error are cleared first. Mismatched passwords send no request, set `'Passwords do not match'` and keep both fields. Otherwise the stored session id and the new password are posted. Success sets the reply's message and clears both fields. Failure sets `ErrorFor` and keeps the fields. |
| `Handoff.UploadOpensUnboundChat` | src/components/Home/Landing.js:47 | The chat view opened by an upload (read at DocumentChat.js:7) fetches no content, shows the placeholder, and refuses every question, for as long as no sidebar click rebinds it. |
| `Handoff.DocumentClickBindsDocument` | src/components/Layout.js:129 | The chat view opened from the sidebar with a non-zero id accepts a question iff it is non-empty. It loads content for any reply that has a content type. |

## Left out

- Network I/O (`fetch`, `axios`), cookies and the backend base URL: each request's settled outcome is a `Reply` parameter of the handler, and the request itself is returned as a value.
- Concurrency: handlers are atomic and run one after another. Overlapping completions are not modelled, such as two expansions of one folder whose fetches finish out of order, or concurrent question submissions. The read of `expandedFolders` in `toggleFolderExpansion` is the flag before the toggle. The exception is the `Register` form, which is modelled in two phases (submit, then complete) so that the `loading` flag is observable; a toggle link may be followed between them.
- Browser and router calls: `URL.createObjectURL` (its result is the `Ok` payload of the content fetch), blobs, `response.text()` (the body text is part of the reply), `window.location.reload()` after logout and after upload, and the form's default submission, which `handleLogin` does not prevent. `navigate` is returned as a `Nav` value.
- The HTML `required` attribute on the inputs: the browser may block an empty submission before a handler runs. The model covers the handlers' own checks.
- `URLSearchParams` parsing: `session_id` is an optional constructor argument.
- JSX rendering, CSS and the PDF iframe: only the data each view is derived from is modelled (the pane, the heading, the label, the links and the lists).
- `src/App.js`, the route table: only the three route names are modelled.
- `console.log` and `console.error` logging.
- Reply bodies of unexpected shape, such as a missing `answer`, a non-string `detail` or a non-JSON error body: each field is a string, and a body that fails to parse is a `Thrown` outcome.
