/**
 * The editor session reducer of lib/editor-store.ts: seven statuses, a closed
 * union of fourteen actions, and a pure total function from (state, action)
 * to the next state. Actions whose tag the switch does not list (the
 * `SELECT_VERSION` and `CANCEL_EDIT` other components dispatch) are
 * `Unrecognised` and fall to the `default` branch.
 */
module EditorStore {
  import opened Common
  import Mask

  datatype EditorStatus = Empty | Uploading | Selection | Selected | Editing | Complete | Error

  datatype Role = User | Assistant

  datatype ChatMessage = ChatMessage(
    id: string,
    role: Role,
    content: string,
    imageThumb: Option<string>,
    timestamp: int)

  /** The browser `File` an upload starts from: its MIME type and size in bytes. */
  datatype FileInfo = FileInfo(mimeType: string, size: nat)

  /** `maskDataUrl` holds the mask PNG, represented by the raster it encodes. */
  datatype EditorState = EditorState(
    status: EditorStatus,
    imageDataUrl: Option<string>,
    maskDataUrl: Option<Mask.MaskImage>,
    lassoPath: Option<seq<Point>>,
    prompt: string,
    editedImageUrl: Option<string>,
    error: Option<string>,
    uploadProgress: int,
    chatMessages: seq<ChatMessage>)

  datatype TagKind = ImageTag | SelectionTag

  /** The `type` tags the reducer's `switch` handles. */
  const HandledTags: set<string> := {
    "START_UPLOAD", "SET_UPLOAD_PROGRESS", "UPLOAD_COMPLETE", "SET_LASSO", "CLEAR_LASSO",
    "SET_PROMPT", "SUBMIT_EDIT", "EDIT_COMPLETE", "EDIT_ERROR", "RETRY", "EDIT_ANOTHER",
    "RESET", "ADD_CHAT_MESSAGE", "REMOVE_TAG"}

  datatype EditorAction =
    | StartUpload(file: FileInfo)
    | SetUploadProgress(progress: int)
    | UploadComplete(imageDataUrl: string)
    | SetLasso(maskDataUrl: Mask.MaskImage, lassoPath: seq<Point>)
    | ClearLasso
    | SetPrompt(prompt: string)
    | SubmitEdit(prompt: string)
    | EditComplete(editedImageUrl: string)
    | EditError(error: string)
    | Retry
    | EditAnother
    | Reset
    | AddChatMessage(message: ChatMessage)
    | RemoveTag(tag: TagKind)
      /** An action object whose `type` is none of the fourteen tags above. */
    | Unrecognised(kind: string)

  const InitialEditorState := EditorState(Empty, None, None, None, "", None, None, 0, [])

  /** The mask and the lasso path are present together or absent together. */
  predicate SelectionPaired(s: EditorState) {
    s.maskDataUrl.Some? <==> s.lassoPath.Some?
  }

  function EditorReducer(state: EditorState, action: EditorAction): (r: EditorState)
    // the chat log only grows, except when the whole session is reinitialised
    ensures r == InitialEditorState || state.chatMessages <= r.chatMessages
    ensures |r.chatMessages| <= |state.chatMessages| + 1
    // no action separates the mask from the path it was drawn from
    ensures SelectionPaired(state) ==> SelectionPaired(r)
  {
    match action
    case StartUpload(_) => state.(status := Uploading, uploadProgress := 0, error := None)
    case SetUploadProgress(p) => state.(uploadProgress := p)
    case UploadComplete(url) => state.(status := Selection, imageDataUrl := Some(url), uploadProgress := 100)
    case SetLasso(mask, path) => state.(status := Selected, maskDataUrl := Some(mask), lassoPath := Some(path))
    case ClearLasso => state.(status := Selection, maskDataUrl := None, lassoPath := None)
    case SetPrompt(p) => state.(prompt := p)
    case SubmitEdit(p) => state.(status := Editing, prompt := p)
    case EditComplete(url) => state.(status := Complete, editedImageUrl := Some(url))
    case EditError(e) => state.(status := Error, error := Some(e))
    case Retry => state.(status := Selected, error := None)
    case EditAnother =>
      state.(
        status := Selection,
        maskDataUrl := None,
        lassoPath := None,
        prompt := "",
        editedImageUrl := None,
        error := None,
        // keep the edited image as the new source
        imageDataUrl := if state.editedImageUrl.Some? then state.editedImageUrl else state.imageDataUrl)
    case Reset => InitialEditorState
    case AddChatMessage(m) => state.(chatMessages := state.chatMessages + [m])
    case RemoveTag(tag) =>
      if tag == SelectionTag then state.(status := Selection, maskDataUrl := None, lassoPath := None)
      else InitialEditorState
    case Unrecognised(_) => state
  }

  /** The state after dispatching `actions` in order. */
  function Run(state: EditorState, actions: seq<EditorAction>): EditorState
    decreases |actions|
  {
    if actions == [] then state else Run(EditorReducer(state, actions[0]), actions[1..])
  }

  lemma RunOfOne(state: EditorState, a: EditorAction)
    ensures Run(state, [a]) == EditorReducer(state, a)
  {
    assert [a][1..] == [];
  }

  lemma RunOfTwo(state: EditorState, a: EditorAction, b: EditorAction)
    ensures Run(state, [a, b]) == EditorReducer(EditorReducer(state, a), b)
  {
    assert [a, b][1..] == [b];
    assert Run(state, [a, b]) == Run(EditorReducer(state, a), [b]);
    assert [b][1..] == [];
    assert Run(EditorReducer(state, a), [b]) == Run(EditorReducer(EditorReducer(state, a), b), []);
  }

  // ---------- One action ----------

  /** Any action the switch does not list returns the very same state. */
  lemma UnrecognisedIsNoOp(state: EditorState, kind: string)
    requires kind !in HandledTags
    ensures EditorReducer(state, Unrecognised(kind)) == state
    ensures EditorReducer(state, Unrecognised("SELECT_VERSION")) == state
    ensures EditorReducer(state, Unrecognised("CANCEL_EDIT")) == state
  {
  }

  /** `RESET`, and removing the image tag, reinitialise the whole session, chat log included. */
  lemma ResetReinitialises(state: EditorState)
    ensures EditorReducer(state, Reset) == InitialEditorState
    ensures EditorReducer(state, RemoveTag(ImageTag)) == InitialEditorState
    ensures InitialEditorState.status == Empty && InitialEditorState.chatMessages == []
  {
  }

  /** Each action that discards the selection lands in `selection` with no mask and no path. */
  lemma DiscardingSelectionClearsMask(state: EditorState, action: EditorAction)
    requires action == ClearLasso || action == RemoveTag(SelectionTag) || action == EditAnother
    ensures EditorReducer(state, action).status == Selection
    ensures EditorReducer(state, action).maskDataUrl == None
    ensures EditorReducer(state, action).lassoPath == None
  {
  }

  /** `SET_LASSO` selects with exactly the given mask and path and touches nothing else. */
  lemma SetLassoSelects(state: EditorState, mask: Mask.MaskImage, path: seq<Point>)
    ensures EditorReducer(state, SetLasso(mask, path))
      == state.(status := Selected, maskDataUrl := Some(mask), lassoPath := Some(path))
  {
  }

  /** `ADD_CHAT_MESSAGE` appends one message at the end and changes no other field. */
  lemma AddChatMessageAppends(state: EditorState, m: ChatMessage)
    ensures EditorReducer(state, AddChatMessage(m)).chatMessages[..|state.chatMessages|] == state.chatMessages
    ensures |EditorReducer(state, AddChatMessage(m)).chatMessages| == |state.chatMessages| + 1
    ensures EditorReducer(state, AddChatMessage(m)).chatMessages[|state.chatMessages|] == m
    ensures EditorReducer(state, AddChatMessage(m)).(chatMessages := state.chatMessages) == state
  {
  }

  /**
   * `EDIT_ANOTHER` promotes the edited image (when there is one) to the source
   * image, clears the selection, the edited image, the error and the prompt,
   * and returns to `selection`; the progress and the chat log stay.
   */
  lemma EditAnotherPromotesEdit(state: EditorState)
    ensures var r := EditorReducer(state, EditAnother);
      && (state.editedImageUrl.Some? ==> r.imageDataUrl == state.editedImageUrl)
      && (state.editedImageUrl.None? ==> r.imageDataUrl == state.imageDataUrl)
      && r.editedImageUrl == None && r.error == None && r.prompt == ""
      && r.maskDataUrl == None && r.lassoPath == None
      && r.status == Selection
      && r.uploadProgress == state.uploadProgress && r.chatMessages == state.chatMessages
  {
  }

  /** The three upload actions. */
  lemma UploadActions(state: EditorState, file: FileInfo, p: int, url: string)
    ensures EditorReducer(state, StartUpload(file)) == state.(status := Uploading, uploadProgress := 0, error := None)
    ensures EditorReducer(state, UploadComplete(url))
      == state.(status := Selection, uploadProgress := 100, imageDataUrl := Some(url))
    ensures EditorReducer(state, SetUploadProgress(p)) == state.(uploadProgress := p)
  {
  }

  /**
   * `UPLOAD_COMPLETE` lands in `selection` but, unlike the actions that discard a
   * selection, keeps whatever mask the state held.
   */
  lemma UploadCompleteKeepsMask(state: EditorState, url: string)
    ensures EditorReducer(state, UploadComplete(url)).status == Selection
    ensures EditorReducer(state, UploadComplete(url)).maskDataUrl == state.maskDataUrl
  {
  }

  /**
   * The reducer never looks at the current status: `SUBMIT_EDIT` enters `editing`
   * from every status, `editing` included, and `RETRY` always re-selects the kept mask.
   */
  lemma TransitionsUnguarded(state: EditorState, prompt: string)
    ensures EditorReducer(state, SubmitEdit(prompt)) == state.(status := Editing, prompt := prompt)
    ensures EditorReducer(state, Retry) == state.(status := Selected, error := None)
    ensures EditorReducer(state, Retry).maskDataUrl == state.maskDataUrl
  {
  }

  /** A successful edit ends in `complete`, not back in `selection`. */
  lemma EditCompleteEndsComplete(state: EditorState, url: string)
    ensures EditorReducer(state, EditComplete(url)) == state.(status := Complete, editedImageUrl := Some(url))
  {
  }

  // ---------- Sequences of actions ----------

  lemma {:induction false} RunAppend(state: EditorState, a: seq<EditorAction>, b: seq<EditorAction>)
    ensures Run(state, a + b) == Run(Run(state, a), b)
    decreases |a|
  {
    if a != [] {
      assert (a + b)[0] == a[0] && (a + b)[1..] == a[1..] + b;
      RunAppend(EditorReducer(state, a[0]), a[1..], b);
    } else {
      assert a + b == b;
    }
  }

  /** The mask and the lasso path stay paired along every run of actions. */
  lemma {:induction false} RunKeepsSelectionPaired(state: EditorState, actions: seq<EditorAction>)
    requires SelectionPaired(state)
    ensures SelectionPaired(Run(state, actions))
    decreases |actions|
  {
    if actions != [] {
      RunKeepsSelectionPaired(EditorReducer(state, actions[0]), actions[1..]);
    }
  }

  predicate ProgressInRange(p: int) {
    0 <= p <= 100
  }

  predicate ReportsProgressInRange(action: EditorAction) {
    action.SetUploadProgress? ==> ProgressInRange(action.progress)
  }

  /** Upload progress stays within 0..100 as long as every reported progress does. */
  lemma {:induction false} RunKeepsProgressInRange(state: EditorState, actions: seq<EditorAction>)
    requires ProgressInRange(state.uploadProgress)
    requires forall i :: 0 <= i < |actions| ==> ReportsProgressInRange(actions[i])
    ensures ProgressInRange(Run(state, actions).uploadProgress)
    decreases |actions|
  {
    if actions != [] {
      assert ReportsProgressInRange(actions[0]);
      RunKeepsProgressInRange(EditorReducer(state, actions[0]), actions[1..]);
    }
  }

  predicate Reinitialises(action: EditorAction) {
    action == Reset || action == RemoveTag(ImageTag)
  }

  /** The chat messages carried by `ADD_CHAT_MESSAGE` actions, in dispatch order. */
  function MessagesOf(actions: seq<EditorAction>): seq<ChatMessage> {
    if actions == [] then []
    else (if actions[0].AddChatMessage? then [actions[0].message] else []) + MessagesOf(actions[1..])
  }

  /**
   * Without a reset, the chat log after a run is the old log followed by every
   * dispatched message, in order.
   */
  lemma {:induction false} ChatLogAppendOnly(state: EditorState, actions: seq<EditorAction>)
    requires forall i :: 0 <= i < |actions| ==> !Reinitialises(actions[i])
    ensures Run(state, actions).chatMessages == state.chatMessages + MessagesOf(actions)
    decreases |actions|
  {
    if actions != [] {
      var a := actions[0];
      var added := if a.AddChatMessage? then [a.message] else [];
      StepChatLog(state, a);
      var next := EditorReducer(state, a);
      ChatLogAppendOnly(next, actions[1..]);
      assert MessagesOf(actions) == added + MessagesOf(actions[1..]);
      assert state.chatMessages + added + MessagesOf(actions[1..])
          == state.chatMessages + (added + MessagesOf(actions[1..]));
    }
  }

  lemma StepChatLog(state: EditorState, a: EditorAction)
    requires !Reinitialises(a)
    ensures EditorReducer(state, a).chatMessages
      == state.chatMessages + (if a.AddChatMessage? then [a.message] else [])
  {
    if !a.AddChatMessage? {
      assert state.chatMessages + [] == state.chatMessages;
    }
  }
}
