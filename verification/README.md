# YouTube Companion dashboard — client state model

A Dafny model of the client-side state logic of a single-page dashboard that
manages one YouTube video's metadata, comments and notes over a REST API.
The model covers four React components:

- the **shell** (`App`): the video-ID field, the fetch of the video record
  with its `loading` / `error` / `video` states, the error toast, the Load
  button's enabling rule, the four tabs and the editor's `onUpdate` callback;
- the **comment view** (`Comments`): the flat comment list fetched from the
  backend, its split into top-level comments and replies and the grouping of
  replies under their parent, the compose box, the per-comment reply drafts
  (`replyText`) and reply panels (`showReply`), and posting, replying and
  deleting;
- the **notes view** (`Notes`): one note draft backed by a list of notes of
  which only the first is read, save (upsert) and delete;
- the **editor** (`Editor`): title and description drafts seeded once from
  the video, and a full-replace save.

Each component whose state the source updates in place is a class whose
fields are the component's `useState` variables, plus `sent`, the log of the
API calls the component has made (a value of `Api.Request`, one constructor
per call of the API client). "No API call" is stated as `sent` being
unchanged, and "sends X verbatim" as `sent` growing by exactly the request
carrying X.

Each async handler is split at its `await` into two methods. The `Begin…`
method (or `FetchVideo`, `FetchComments`, `FetchNotes`) runs the handler up
to the call: its guards, the flags it raises, and the request it sends. The
`Complete…` / `Receive…` method runs the continuation and takes the call's
result as a parameter (`Common.Outcome`: `Success(data)` or `Failure`), so a
network call is never executed, only assumed to settle one way or the other.
This makes the in-flight state observable (`saving` and `loading` are true
between the two steps), and it lets other handlers run in between, as they
can in the browser. A refetch triggered by a successful mutation is one more
request in `sent`; its result arrives through a separate `Receive…` step.

The `addReply` continuation writes `{ ...replyText, [id]: '' }` and
`{ ...showReply, [id]: false }` with the maps its closure captured when the
handler ran, not the ones current when the call settles. `BeginAddReply`
therefore returns those captured maps in a `ReplyCall` value, and
`CompleteAddReply` builds the new maps from them. When nothing else touched
the maps meanwhile, this is the current state with only that comment's
entries changed; an edit made to another comment's draft or panel while the
reply is in flight is undone.

`.trim()` emptiness is modelled by `Common.Trim` over the characters
ECMAScript's `trim` removes; the handlers test the equivalent `IsBlank`
(`Common.TrimEmptyIffBlank`).

`fetchVideo` does not refuse a submission while a fetch is in flight: it
does not look at `loading` (src/App.jsx:32), and the Enter key calls it
directly (src/App.jsx:73). Only the Load button is disabled while loading
(src/App.jsx:77). So `App.Shell.KeyDown` and `App.Shell.FetchVideo` start a
second fetch while one is in flight, and only `App.Shell.ClickLoad` refuses.

`Api.Comment.id` is the comment's `_id` field, the key the comment view reads
for reply drafts, reply panels and `parentId` links.

## Model

| member | source | states |
|---|---|---|
| `Common.Trim` | src/components/Comments.jsx:26 | definition, no contract of its own: `.trim()`, removing leading and trailing ECMAScript whitespace; its meaning is stated by `Common.TrimStart`, `Common.TrimEnd` and `Common.TrimEmptyIffBlank` |
| `Common.IsBlank` | src/App.jsx:32 | definition, no contract of its own: every character is whitespace, the condition under which the `!x.trim()` guards stop a handler |
| `Common.TrimStart` | src/components/Comments.jsx:26 | the result is the suffix of the input left after removing leading whitespace: it does not start with whitespace, and everything removed is whitespace |
| `Common.TrimEnd` | src/components/Notes.jsx:27 | the result is the prefix of the input left after removing trailing whitespace: it does not end with whitespace, and everything removed is whitespace |
| `Common.TrimEmptyIffBlank` | src/App.jsx:32 | `s.trim()` is empty exactly when every character of `s` is whitespace, so the `!x.trim()` guards are the `IsBlank` tests of the model |
| `Seqs.Filter` | src/components/Comments.jsx:65-66 | definition, no contract of its own: `Array.prototype.filter`; its meaning is stated by the `Seqs.Filter…` lemmas below |
| `Seqs.FilterCounts` | src/components/Comments.jsx:65-66 | `filter` keeps every element that passes the test, as many times as the input holds it, and no other element |
| `Seqs.FilterIsSubsequence` | src/components/Comments.jsx:65-66 | `filter` keeps the relative order of the elements it keeps |
| `Seqs.FilterAppend` | src/components/Comments.jsx:65-66 | filtering a concatenation is the concatenation of the filtered parts |
| `Seqs.FilterNone` | src/components/Comments.jsx:65-66 | a list none of whose elements passes the test filters to the empty list |
| `Seqs.FilterAll` | src/components/Comments.jsx:65-66 | a list all of whose elements pass the test filters to itself |
| `Comments.ParentComments` | src/components/Comments.jsx:65 | `parentComments` is exactly the non-reply comments, each as often as fetched, in fetch order |
| `Comments.ReplyComments` | src/components/Comments.jsx:66 | `replies` is exactly the reply comments, each as often as fetched, in fetch order |
| `Comments.RepliesTo` | src/components/Comments.jsx:122 | the replies shown under one parent are exactly those whose `parentId` is that parent's `_id`, in fetch order |
| `Comments.Thread` | src/components/Comments.jsx:93-140 | definition, no contract of its own: one group per top-level comment, holding the replies whose `parentId` is its `_id`; its meaning is stated by `Comments.ThreadContents` |
| `Comments.ThreadContents` | src/components/Comments.jsx:93-140 | the rendered thread has one group per top-level comment, in order; a comment appears under a parent exactly when it is a fetched reply whose `parentId` is that parent's `_id`, and the replies keep fetch order |
| `Comments.PartitionIsPermutation` | src/components/Comments.jsx:65-66 | parents and replies together are a permutation of the fetched list |
| `Comments.ThreadOfPartition` | src/components/Comments.jsx:65-66 | the split is idempotent: splitting "parents then replies" again yields the same parents, the same replies and the same rendered thread |
| `Comments.OrphanReplyHidden` | src/components/Comments.jsx:122 | a reply whose `parentId` names no top-level comment of the list is shown under no parent |
| `Comments.OneParentOneReply` | src/components/Comments.jsx:93-140 | a top-level comment followed by a reply to it renders as one parent with that one reply nested |
| `Comments.IsOpen` | src/components/Comments.jsx:143 | definition, no contract of its own: a reply panel is open when its entry exists and is true |
| `Comments.DraftOf` | src/components/Comments.jsx:146 | definition, no contract of its own: a reply box shows its draft, or the empty string when there is none |
| `Comments.Toggled` | src/components/Comments.jsx:113 | the toggled panel map flips the entry of that comment, a missing entry counting as closed, and keeps every other entry |
| `Comments.ToggleTwice` | src/components/Comments.jsx:113 | toggling a panel twice leaves every panel open or closed as before |
| `Comments.CommentThread.constructor` | src/components/Comments.jsx:6-14 | the view mounts with no comments, an empty compose box, no drafts, no open panels, not loading, and its mount effect requests the comments of its video |
| `Comments.CommentThread.ChangeVideoId` | src/components/Comments.jsx:12-14 | a new video id triggers exactly one fetch of its comments; the same id triggers none |
| `Comments.CommentThread.FetchComments` | src/components/Comments.jsx:16-18 | a fetch sends exactly one request for the comments of the current video |
| `Comments.CommentThread.ReceiveComments` | src/components/Comments.jsx:18-22 | a successful fetch replaces the list with the returned one; a failed fetch leaves it unchanged |
| `Comments.CommentThread.CanPost` | src/components/Comments.jsx:83 | definition, no contract of its own: the Post button is enabled when not loading and the compose box is not blank |
| `Comments.CommentThread.EditNewComment` | src/components/Comments.jsx:76 | typing sets the compose box |
| `Comments.CommentThread.BeginAddComment` | src/components/Comments.jsx:25-30 | a blank compose box makes no call and changes nothing; otherwise `loading` is set, the Post button is disabled, and the text is sent verbatim |
| `Comments.CommentThread.CompleteAddComment` | src/components/Comments.jsx:31-37 | success clears the compose box and requests a refetch; failure keeps the text and sends nothing; `loading` is false in both cases |
| `Comments.CommentThread.EditReply` | src/components/Comments.jsx:147 | typing in a reply box sets only that comment's draft |
| `Comments.CommentThread.ToggleReply` | src/components/Comments.jsx:113 | the Reply button flips only that comment's panel, a missing entry counting as closed |
| `Comments.CommentThread.CancelReply` | src/components/Comments.jsx:160 | Cancel closes only that comment's panel |
| `Comments.CommentThread.BeginAddReply` | src/components/Comments.jsx:40-45 | a missing or blank draft makes no call; otherwise the draft is sent verbatim for that comment, and the handler's captured maps are returned |
| `Comments.CommentThread.CompleteAddReply` | src/components/Comments.jsx:46-51 | success empties only that comment's draft and closes only its panel, keeping every other entry of the captured maps, and requests a refetch; failure changes nothing |
| `Comments.CommentThread.BeginDeleteComment` | src/components/Comments.jsx:54-58 | a declined confirmation makes no call; a confirmed one sends exactly one delete for that id |
| `Comments.CommentThread.CompleteDeleteComment` | src/components/Comments.jsx:59-62 | nothing is removed locally (no cascade to replies); success requests a refetch, failure sends nothing |
| `Notes.NotesView.constructor` | src/components/Notes.jsx:6-12 | the view mounts with no notes, an empty draft, not saving, and no "last updated" line, and its mount effect requests the notes of its video |
| `Notes.NotesView.ChangeVideoId` | src/components/Notes.jsx:10-12 | a new video id triggers exactly one fetch of its notes; the same id triggers none |
| `Notes.NotesView.HasNote` | src/components/Notes.jsx:88 | definition, no contract of its own: a note exists when the notes list is non-empty, which is when the Delete button and the "last updated" line are rendered (also src/components/Notes.jsx:99) |
| `Notes.NotesView.LastUpdated` | src/components/Notes.jsx:99-102 | definition, no contract of its own: the first note's timestamp when the list is non-empty; how it changes is stated by `Notes.NotesView.constructor`, `Notes.NotesView.ReceiveNotes` and `Notes.NotesView.CompleteDeleteNote` |
| `Notes.NotesView.CanSave` | src/components/Notes.jsx:81 | definition, no contract of its own: the Save button is enabled when not saving and the draft is not blank |
| `Notes.NotesView.FetchNotes` | src/components/Notes.jsx:14-16 | a fetch sends exactly one request for the notes of the current video |
| `Notes.NotesView.ReceiveNotes` | src/components/Notes.jsx:16-23 | a non-empty result sets the draft to the first note's text and the list to the result, and the "last updated" line then shows the first note's timestamp; an empty result or a failure leaves both unchanged |
| `Notes.NotesView.EditNote` | src/components/Notes.jsx:71 | typing sets the draft |
| `Notes.NotesView.BeginSaveNote` | src/components/Notes.jsx:26-31 | a blank draft makes no call; otherwise `saving` is set, the Save button is disabled, and the draft is sent verbatim |
| `Notes.NotesView.CompleteSaveNote` | src/components/Notes.jsx:32-38 | success requests a refetch, failure sends nothing; `saving` is false in both cases and the draft and list are untouched |
| `Notes.NotesView.BeginDeleteNote` | src/components/Notes.jsx:41-45 | a declined confirmation makes no call; a confirmed one sends exactly one delete for this video's note |
| `Notes.NotesView.CompleteDeleteNote` | src/components/Notes.jsx:46-51 | success clears the draft and the list, so the delete control and "last updated" line disappear; failure leaves both unchanged |
| `App.Shell.constructor` | src/App.jsx:25-29 | the shell starts with an empty ID, no video, the Details tab, not loading and no error, so the Load button is disabled and no view is shown |
| `App.Shell.EditVideoId` | src/App.jsx:72 | typing sets the ID field |
| `App.Shell.LoadDisabled` | src/App.jsx:77 | definition, no contract of its own: the Load button is disabled while loading or while the ID is blank |
| `App.Shell.VisibleTab` | src/App.jsx:101-130 | definition, no contract of its own: the active tab's view when not loading and a video is present, none otherwise; how it changes is stated by `App.Shell.constructor` (none), `App.Shell.FetchVideo` (none while a fetch is in flight), `App.Shell.CompleteFetchVideo` (shown after a success) and `App.Shell.SelectTab` |
| `App.Shell.FetchVideo` | src/App.jsx:31-36 | a blank ID makes no call and leaves `loading` and `error` unchanged; otherwise `loading` is set and `error` cleared before the one request for that ID, whether or not a fetch is in flight |
| `App.Shell.CompleteFetchVideo` | src/App.jsx:36-43 | success replaces the video with the returned record and shows the active tab's view; failure sets the fixed error text and keeps the previous video; `loading` is false in both cases |
| `App.Shell.KeyDown` | src/App.jsx:73 | Enter runs the fetch, without checking `loading`; other keys do nothing |
| `App.Shell.ClickLoad` | src/App.jsx:76-77 | the Load button starts a fetch exactly when it is enabled, i.e. not loading and the ID is not blank |
| `App.Shell.SelectTab` | src/App.jsx:107 | selecting a tab changes only the active tab, never the video, and sends nothing; whether a view is shown stays as it was |
| `App.Shell.OnUpdate` | src/App.jsx:126 | the editor's update replaces the video record wholesale |
| `App.Shell.DismissError` | src/App.jsx:55 | dismissing the toast clears the error |
| `Editor.VideoEditor.constructor` | src/components/VideoEditor.jsx:5-8 | the drafts are seeded from the video's title and description; not saving |
| `Editor.VideoEditor.ReceiveVideo` | src/components/VideoEditor.jsx:6-7 | a later `video` prop does not re-seed the drafts |
| `Editor.VideoEditor.EditTitle` | src/components/VideoEditor.jsx:32 | typing sets the title draft |
| `Editor.VideoEditor.EditDescription` | src/components/VideoEditor.jsx:41 | typing sets the description draft |
| `Editor.VideoEditor.CanSave` | src/components/VideoEditor.jsx:49 | definition, no contract of its own: the Save button is enabled while no save is in flight |
| `Editor.VideoEditor.BeginSave` | src/components/VideoEditor.jsx:10-13 | `saving` is set, the Save button is disabled, and exactly the current title and description drafts are sent for the video's id, with no blank check |
| `Editor.VideoEditor.CompleteSave` | src/components/VideoEditor.jsx:14-21 | only on success is the shell's video replaced by the server's record; on failure the shell is untouched; the drafts are unchanged and `saving` is false in both cases |
| `Editor.RenameVideo` | src/components/VideoEditor.jsx:5-21 | opening the editor on a loaded video, changing the title and saving sends the new title with the original description, and the shell then holds the returned record |

## Left out

- The REST backend and the API client (src/services/api.js): each call is an
  `Api.Request` value and its result an outcome parameter; routes, HTTP and
  JSON are not modelled. The round trip "upsert a note, then fetch it back"
  depends on the backend and is not stated.
- Ordering between concurrent calls: a completion step stands for the
  continuation of some earlier request and may be taken at any time and in
  any order; the model does not check that each completion answers one issued
  request. Every property is stated for all such orders, so it also holds for
  the orders the browser can produce.
- Continuations of `addComment`, `addReply`, `deleteComment` and `saveNote`
  call the `fetchComments` / `fetchNotes` of the render in which the handler
  ran (src/components/Comments.jsx:32, 48, 59; src/components/Notes.jsx:32),
  so they refetch with the `videoId` captured then; the completion methods use
  the current `videoId`. The two differ only if the `videoId` prop changes
  while a call is outstanding, which the assembled app never does: a view is
  mounted only while `!loading && video` holds (src/App.jsx:101), a new fetch
  sets `loading` and so unmounts it, and the record a view shows is only ever
  replaced by `onUpdate` with the record the server returns for that video.
- The 600 ms delay after a successful video fetch (src/App.jsx:37): it only
  keeps `loading` true a little longer.
- `alert` and `console.error` notices, and the `window.confirm` dialog, which
  is the boolean `confirmed` parameter.
- Mounting and unmounting of views on tab switches: each view object is one
  mounted lifetime; the state a view loses when its tab is left is not
  modelled.
- Rendering: JSX, CSS, the Toast and Skeleton components, the "no comments
  yet" message, the detail view (src/components/VideoDetails.jsx) and its date
  and number formatting.
