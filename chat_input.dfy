/**
 * The prompt box of components/chat-input.tsx: when a prompt may be submitted,
 * which tag is shown and what removing it dispatches, and the exact actions
 * `handleSubmit` and `handleCancel` dispatch.
 *
 * The asynchronous request is collapsed into its settled outcome: the model
 * takes how `submitInpaint` settled and how the resize of its result settled
 * as inputs, and the random message ids and clock readings as stamps.
 */
module ChatInput {
  import opened Common
  import opened EditorStore
  import opened ImageUtils

  // ---------- String.prototype.trim ----------

  /** The JavaScript WhiteSpace and LineTerminator code points that `trim` removes. */
  predicate IsJsWhitespace(c: char) {
    || c == '\t' || c == '\n' || c == '\U{000B}' || c == '\U{000C}' || c == '\r' || c == ' '
    || c == '\U{00A0}' || c == '\U{1680}' || ('\U{2000}' <= c <= '\U{200A}')
    || c == '\U{2028}' || c == '\U{2029}' || c == '\U{202F}' || c == '\U{205F}'
    || c == '\U{3000}' || c == '\U{FEFF}'
  }

  predicate AllWhitespace(s: string) {
    forall i :: 0 <= i < |s| ==> IsJsWhitespace(s[i])
  }

  /** Drops leading whitespace: the result is the suffix of `s` that starts at its first other character. */
  function TrimStart(s: string): (r: string)
    ensures |r| <= |s| && r == s[|s| - |r|..]
    ensures AllWhitespace(s[..|s| - |r|])
    ensures r == [] || !IsJsWhitespace(r[0])
  {
    if s != [] && IsJsWhitespace(s[0]) then
      var r := TrimStart(s[1..]);
      assert s[..|s| - |r|] == [s[0]] + s[1..][..|s| - 1 - |r|];
      r
    else s
  }

  /** Drops trailing whitespace: the result is the prefix of `s` that ends at its last other character. */
  function TrimEnd(s: string): (r: string)
    ensures |r| <= |s| && r == s[..|r|]
    ensures AllWhitespace(s[|r|..])
    ensures r == [] || !IsJsWhitespace(r[|r| - 1])
  {
    if s != [] && IsJsWhitespace(s[|s| - 1]) then
      var r := TrimEnd(s[..|s| - 1]);
      assert s[|r|..] == s[..|s| - 1][|r|..] + [s[|s| - 1]];
      r
    else s
  }

  function Trim(s: string): string {
    TrimEnd(TrimStart(s))
  }

  /** The trimmed input is non-empty exactly when the input has a non-whitespace character. */
  lemma TrimNonEmptyIff(s: string)
    ensures |Trim(s)| > 0 <==> exists i :: 0 <= i < |s| && !IsJsWhitespace(s[i])
  {
    var t := TrimStart(s);
    var n := |s| - |t|;
    if |Trim(s)| == 0 {
      // a non-empty `t` starts with a non-whitespace character that TrimEnd would keep
      assert AllWhitespace(t[|TrimEnd(t)|..]);
      assert t == [];
      forall i | 0 <= i < |s| ensures IsJsWhitespace(s[i]) {
        assert s[..n][i] == s[i];
      }
    } else {
      var r := Trim(s);
      assert r[0] == t[0] == s[n];
    }
  }

  // ---------- Guards and tag ----------

  /** `canSubmit`. */
  predicate CanSubmit(input: string, state: EditorState) {
    |Trim(input)| > 0 && state.status == Selected && state.maskDataUrl.Some?
  }

  /** Submission needs some non-whitespace input, status `selected` and a mask. */
  lemma CanSubmitIff(input: string, state: EditorState)
    ensures CanSubmit(input, state) <==>
      && (exists i :: 0 <= i < |input| && !IsJsWhitespace(input[i]))
      && state.status == Selected
      && state.maskDataUrl.Some?
  {
    TrimNonEmptyIff(input);
  }

  /** `showTag`. */
  predicate ShowTag(state: EditorState) {
    (state.status == Selection && state.imageDataUrl.Some?) || state.status == Selected
  }

  function TagLabel(state: EditorState): string {
    if state.status == Selected then "Selection" else "Image"
  }

  /** The action the tag's remove button dispatches. */
  function TagRemoval(state: EditorState): EditorAction {
    RemoveTag(if state.status == Selected then SelectionTag else ImageTag)
  }

  /**
   * Removing the "Selection" tag drops back to `selection` with no mask and no
   * path; removing the "Image" tag reinitialises the session.
   */
  lemma RemovingTheTag(state: EditorState)
    requires ShowTag(state)
    ensures state.status == Selected ==>
      && TagLabel(state) == "Selection"
      && EditorReducer(state, TagRemoval(state)).status == Selection
      && EditorReducer(state, TagRemoval(state)).maskDataUrl == None
      && EditorReducer(state, TagRemoval(state)).lassoPath == None
    ensures state.status != Selected ==>
      && state.imageDataUrl.Some?
      && TagLabel(state) == "Image"
      && EditorReducer(state, TagRemoval(state)) == InitialEditorState
  {
  }

  // ---------- Submission ----------

  /** How `submitInpaint` settled. */
  datatype RequestOutcome = Returned(editedImageUrl: string, width: int, height: int) | Threw(e: Thrown)

  /** A message id from `crypto.randomUUID()` and a `Date.now()` reading. */
  datatype Stamp = Stamp(id: string, timestamp: int)

  /** The actions dispatched, in order, and the input text afterwards. */
  datatype Submission = Submission(actions: seq<EditorAction>, input: string)

  const EditsReady := "Here are your edits!"
  const FallbackMessage := "Something went wrong."

  function UserMessage(prompt: string, state: EditorState, stamp: Stamp): ChatMessage {
    ChatMessage(stamp.id, User, prompt, state.imageDataUrl, stamp.timestamp)
  }

  function AssistantMessage(content: string, stamp: Stamp): ChatMessage {
    ChatMessage(stamp.id, Assistant, content, None, stamp.timestamp)
  }

  /** The `catch` block: nothing for an abort, otherwise an error message and `EDIT_ERROR`. */
  function OnFailure(e: Thrown, stamp: Stamp): seq<EditorAction> {
    if IsAbort(e) then []
    else
      var message := MessageOr(e, FallbackMessage);
      [AddChatMessage(AssistantMessage("Error: " + message, stamp)), EditError(message)]
  }

  /**
   * What the `try` and `catch` blocks dispatch once the request has settled,
   * and whether the input is cleared (only after a successful edit).
   */
  function Settlement(request: RequestOutcome, resized: Result<string, Thrown>, stamp: Stamp): (seq<EditorAction>, bool) {
    match request
    case Threw(e) => (OnFailure(e, stamp), false)
    case Returned(_, _, _) =>
      match resized
      case Err(e) => (OnFailure(e, stamp), false)
      case Ok(url) => ([AddChatMessage(AssistantMessage(EditsReady, stamp)), EditComplete(url)], true)
  }

  /** The user's message with the trimmed prompt, then `SUBMIT_EDIT` with that prompt. */
  function Opening(input: string, state: EditorState, stamp: Stamp): seq<EditorAction> {
    [AddChatMessage(UserMessage(Trim(input), state, stamp)), SubmitEdit(Trim(input))]
  }

  /**
   * `handleSubmit`, with `resized` how the step after the request settled:
   * `Resized` for the resize the code intends (`SubmitWithResize`), the
   * `TypeError` for the code as written (`SubmitAsWritten`).
   */
  function SubmitSequence(input: string, state: EditorState, request: RequestOutcome,
                          resized: Result<string, Thrown>, userStamp: Stamp, replyStamp: Stamp): Submission
  {
    if !CanSubmit(input, state) then Submission([], input)
    else
      var (closing, cleared) := Settlement(request, resized, replyStamp);
      Submission(Opening(input, state, userStamp) + closing, if cleared then "" else input)
  }

  /**
   * How the three image loads of `resizeImageToMatch` settle: the returned
   * image, the original image it is matched against, and the second load of
   * the returned image made only when the sizes differ.
   */
  datatype ResizeLoads = ResizeLoads(source: Probe, reference: Probe, reload: Probe)

  /**
   * The step after the request: `resizeImageToMatch(result.editedImageUrl, original)`
   * and the string it resolves to. When the request threw, no resize starts
   * and the request's own error is what reaches the `catch` block.
   */
  function Resized(request: RequestOutcome, loads: ResizeLoads, png: string): Result<string, Thrown> {
    match request
    case Threw(e) => Err(e)
    case Returned(url, _, _) =>
      match ResizeOutcome(url, loads.source, loads.reference, loads.reload)
      case Ok(rendered) => Ok(ResolvedUrl(rendered, png))
      case Err(e) => Err(e)
  }

  /** `handleSubmit` with the resize against the original image that the code intends. */
  function SubmitWithResize(input: string, state: EditorState, request: RequestOutcome, loads: ResizeLoads,
                            png: string, userStamp: Stamp, replyStamp: Stamp): Submission
  {
    SubmitSequence(input, state, request, Resized(request, loads, png), userStamp, replyStamp)
  }

  /**
   * `state.imageVersions[0]` on an `EditorState`, which has no `imageVersions`:
   * reading index 0 of `undefined` throws this `TypeError`.
   */
  const ImageVersionsTypeError := ErrorValue(false, "TypeError", "Cannot read properties of undefined (reading '0')")

  /**
   * `handleSubmit` as written: after the request returns, the resize reference
   * is read from the missing `imageVersions` field, which throws before the
   * resize starts.
   */
  function SubmitAsWritten(input: string, state: EditorState, request: RequestOutcome,
                           userStamp: Stamp, replyStamp: Stamp): Submission
  {
    SubmitSequence(input, state, request, Err(ImageVersionsTypeError), userStamp, replyStamp)
  }

  lemma OpeningSteps(state: EditorState, m: ChatMessage, prompt: string)
    ensures EditorReducer(EditorReducer(state, AddChatMessage(m)), SubmitEdit(prompt))
      == state.(status := Editing, prompt := prompt, chatMessages := state.chatMessages + [m])
  {
  }

  /** The two actions every submission opens with. */
  lemma OpeningRun(state: EditorState, m: ChatMessage, prompt: string)
    ensures Run(state, [AddChatMessage(m), SubmitEdit(prompt)])
      == state.(status := Editing, prompt := prompt, chatMessages := state.chatMessages + [m])
  {
    RunOfTwo(state, AddChatMessage(m), SubmitEdit(prompt));
    OpeningSteps(state, m, prompt);
  }

  lemma ErrorSteps(state: EditorState, m: ChatMessage, message: string)
    ensures EditorReducer(EditorReducer(state, AddChatMessage(m)), EditError(message))
      == state.(status := Error, error := Some(message), chatMessages := state.chatMessages + [m])
  {
  }

  /** The two actions a reported failure closes with. */
  lemma ErrorRun(state: EditorState, m: ChatMessage, message: string)
    ensures Run(state, [AddChatMessage(m), EditError(message)])
      == state.(status := Error, error := Some(message), chatMessages := state.chatMessages + [m])
  {
    RunOfTwo(state, AddChatMessage(m), EditError(message));
    ErrorSteps(state, m, message);
  }

  lemma CompleteSteps(state: EditorState, m: ChatMessage, url: string)
    ensures EditorReducer(EditorReducer(state, AddChatMessage(m)), EditComplete(url))
      == state.(status := Complete, editedImageUrl := Some(url), chatMessages := state.chatMessages + [m])
  {
  }

  /** The two actions a successful edit closes with. */
  lemma CompleteRun(state: EditorState, m: ChatMessage, url: string)
    ensures Run(state, [AddChatMessage(m), EditComplete(url)])
      == state.(status := Complete, editedImageUrl := Some(url), chatMessages := state.chatMessages + [m])
  {
    RunOfTwo(state, AddChatMessage(m), EditComplete(url));
    CompleteSteps(state, m, url);
  }

  /** A submission's opening followed by a successful close. */
  lemma OpeningThenComplete(state: EditorState, um: ChatMessage, prompt: string, am: ChatMessage, url: string)
    ensures Run(state, [AddChatMessage(um), SubmitEdit(prompt)] + [AddChatMessage(am), EditComplete(url)])
      == state.(status := Complete, prompt := prompt, editedImageUrl := Some(url),
                chatMessages := state.chatMessages + [um, am])
  {
    var opening := [AddChatMessage(um), SubmitEdit(prompt)];
    RunAppend(state, opening, [AddChatMessage(am), EditComplete(url)]);
    OpeningRun(state, um, prompt);
    var s2 := state.(status := Editing, prompt := prompt, chatMessages := state.chatMessages + [um]);
    CompleteRun(s2, am, url);
    assert s2.chatMessages + [am] == state.chatMessages + [um, am];
  }

  /** A submission's opening followed by a reported failure. */
  lemma OpeningThenError(state: EditorState, um: ChatMessage, prompt: string, am: ChatMessage, message: string)
    ensures Run(state, [AddChatMessage(um), SubmitEdit(prompt)] + [AddChatMessage(am), EditError(message)])
      == state.(status := Error, prompt := prompt, error := Some(message),
                chatMessages := state.chatMessages + [um, am])
  {
    var opening := [AddChatMessage(um), SubmitEdit(prompt)];
    RunAppend(state, opening, [AddChatMessage(am), EditError(message)]);
    OpeningRun(state, um, prompt);
    var s2 := state.(status := Editing, prompt := prompt, chatMessages := state.chatMessages + [um]);
    ErrorRun(s2, am, message);
    assert s2.chatMessages + [am] == state.chatMessages + [um, am];
  }

  /** When `canSubmit` is false nothing is dispatched; in particular nothing while `editing`. */
  lemma BlockedSubmitDispatchesNothing(input: string, state: EditorState, request: RequestOutcome,
                                       resized: Result<string, Thrown>, u: Stamp, v: Stamp)
    requires !CanSubmit(input, state) || state.status == Editing
    ensures SubmitSequence(input, state, request, resized, u, v) == Submission([], input)
  {
  }

  /** A submission opens with the user's trimmed prompt as a chat message, then `SUBMIT_EDIT` with that prompt. */
  lemma SubmitOpensWithPrompt(input: string, state: EditorState, request: RequestOutcome,
                              resized: Result<string, Thrown>, u: Stamp, v: Stamp)
    requires CanSubmit(input, state)
    ensures var acts := SubmitSequence(input, state, request, resized, u, v).actions;
      && |acts| >= 2
      && acts[0] == AddChatMessage(ChatMessage(u.id, User, Trim(input), state.imageDataUrl, u.timestamp))
      && acts[1] == SubmitEdit(Trim(input))
  {
  }

  /**
   * Once the step after the request resolves to `resized`, the assistant's
   * "Here are your edits!" comes before `EDIT_COMPLETE` with `resized`, the
   * input is cleared, and the session ends in `complete` with both messages appended.
   */
  lemma ResolvedTrace(input: string, state: EditorState, url: string, w: int, h: int,
                      resized: string, u: Stamp, v: Stamp)
    requires CanSubmit(input, state)
    ensures var sub := SubmitSequence(input, state, Returned(url, w, h), Ok(resized), u, v);
      && sub.input == ""
      && sub.actions[2..] == [AddChatMessage(AssistantMessage(EditsReady, v)), EditComplete(resized)]
      && Run(state, sub.actions) == state.(
           status := Complete,
           prompt := Trim(input),
           editedImageUrl := Some(resized),
           chatMessages := state.chatMessages
             + [UserMessage(Trim(input), state, u), AssistantMessage(EditsReady, v)])
  {
    var prompt := Trim(input);
    var um, am := UserMessage(prompt, state, u), AssistantMessage(EditsReady, v);
    var opening := [AddChatMessage(um), SubmitEdit(prompt)];
    var closing := [AddChatMessage(am), EditComplete(resized)];
    assert Opening(input, state, u) == opening;
    assert SubmitSequence(input, state, Returned(url, w, h), Ok(resized), u, v) == Submission(opening + closing, "");
    OpeningThenComplete(state, um, prompt, am, resized);
    assert (opening + closing)[2..] == closing;
  }

  /**
   * On success `EDIT_COMPLETE` carries the returned URL itself when its image
   * already has the original's size. Otherwise the returned image is drawn
   * over the whole of a canvas of the original's size, and `EDIT_COMPLETE`
   * carries that canvas's PNG data URL `png`. The input is cleared and the
   * session ends in `complete` with both messages appended.
   */
  lemma SuccessTrace(input: string, state: EditorState, url: string, w: int, h: int,
                     loads: ResizeLoads, png: string, u: Stamp, v: Stamp)
    requires CanSubmit(input, state)
    requires loads.source.Loaded? && loads.reference.Loaded?
    requires loads.source == loads.reference || loads.reload.Loaded?
    ensures var ref := loads.reference;
      loads.source != ref ==>
        ResizeOutcome(url, loads.source, ref, loads.reload)
          == Ok(CanvasPng(ref.width, ref.height, [DrawCall.DrawImage(url, 0, 0, ref.width, ref.height)]))
    ensures var edited := if loads.source == loads.reference then url else png;
      var sub := SubmitWithResize(input, state, Returned(url, w, h), loads, png, u, v);
      && sub.input == ""
      && sub.actions[2..] == [AddChatMessage(AssistantMessage(EditsReady, v)), EditComplete(edited)]
      && Run(state, sub.actions) == state.(
           status := Complete,
           prompt := Trim(input),
           editedImageUrl := Some(edited),
           chatMessages := state.chatMessages
             + [UserMessage(Trim(input), state, u), AssistantMessage(EditsReady, v)])
  {
    var edited := if loads.source == loads.reference then url else png;
    ResizeResolves(url, w, h, loads, png);
    ResolvedTrace(input, state, url, w, h, edited, u, v);
  }

  lemma ResizeResolves(url: string, w: int, h: int, loads: ResizeLoads, png: string)
    requires loads.source.Loaded? && loads.reference.Loaded?
    requires loads.source == loads.reference || loads.reload.Loaded?
    ensures Resized(Returned(url, w, h), loads, png) == Ok(if loads.source == loads.reference then url else png)
  {
  }

  /**
   * A failed load of the returned or the original image, or of the redraw,
   * rejects with a non-`Error`: "Error: Something went wrong." and
   * `EDIT_ERROR`, the input kept and the session in `error`.
   */
  lemma ResizeFailureTrace(input: string, state: EditorState, url: string, w: int, h: int,
                           loads: ResizeLoads, png: string, u: Stamp, v: Stamp)
    requires CanSubmit(input, state)
    requires loads.source.LoadFailed? || loads.reference.LoadFailed?
      || (loads.source != loads.reference && loads.reload.LoadFailed?)
    ensures var sub := SubmitWithResize(input, state, Returned(url, w, h), loads, png, u, v);
      && sub.input == input
      && sub.actions[2..] == [AddChatMessage(AssistantMessage("Error: " + FallbackMessage, v)), EditError(FallbackMessage)]
      && Run(state, sub.actions).status == Error
      && Run(state, sub.actions).error == Some(FallbackMessage)
      && Run(state, sub.actions).editedImageUrl == state.editedImageUrl
  {
    assert Resized(Returned(url, w, h), loads, png) == Err(OtherValue);
    FailureTrace(input, state, OtherValue, Returned(url, w, h), Err(OtherValue), u, v);
  }

  /** Both failure paths reach the same `catch` block. */
  lemma FailedSubmission(input: string, state: EditorState, e: Thrown, request: RequestOutcome,
                         resized: Result<string, Thrown>, u: Stamp, v: Stamp)
    requires CanSubmit(input, state)
    requires request == Threw(e) || (request.Returned? && resized == Err(e))
    ensures SubmitSequence(input, state, request, resized, u, v)
      == Submission([AddChatMessage(UserMessage(Trim(input), state, u)), SubmitEdit(Trim(input))] + OnFailure(e, v), input)
  {
  }

  /** An aborted request dispatches nothing more, keeps the input and leaves the session `editing`. */
  lemma AbortTrace(input: string, state: EditorState, e: Thrown, request: RequestOutcome,
                   resized: Result<string, Thrown>, u: Stamp, v: Stamp)
    requires CanSubmit(input, state)
    requires IsAbort(e)
    requires request == Threw(e) || (request.Returned? && resized == Err(e))
    ensures var sub := SubmitSequence(input, state, request, resized, u, v);
      && sub.input == input
      && |sub.actions| == 2
      && Run(state, sub.actions) == state.(
           status := Editing,
           prompt := Trim(input),
           chatMessages := state.chatMessages + [UserMessage(Trim(input), state, u)])
  {
    var prompt := Trim(input);
    var um := UserMessage(prompt, state, u);
    FailedSubmission(input, state, e, request, resized, u, v);
    assert [AddChatMessage(um), SubmitEdit(prompt)] + OnFailure(e, v) == [AddChatMessage(um), SubmitEdit(prompt)];
    OpeningRun(state, um, prompt);
  }

  /**
   * Any other failure appends "Error: " and its message (or "Something went
   * wrong." for a non-`Error` throwable), then `EDIT_ERROR` with that message;
   * the input is kept.
   */
  lemma FailureTrace(input: string, state: EditorState, e: Thrown, request: RequestOutcome,
                     resized: Result<string, Thrown>, u: Stamp, v: Stamp)
    requires CanSubmit(input, state) && !IsAbort(e)
    requires request == Threw(e) || (request.Returned? && resized == Err(e))
    ensures var sub := SubmitSequence(input, state, request, resized, u, v);
      var message := if e.ErrorValue? then e.message else FallbackMessage;
      && sub.input == input
      && sub.actions[2..] == [AddChatMessage(AssistantMessage("Error: " + message, v)), EditError(message)]
      && Run(state, sub.actions) == state.(
           status := Error,
           prompt := Trim(input),
           error := Some(message),
           chatMessages := state.chatMessages
             + [UserMessage(Trim(input), state, u), AssistantMessage("Error: " + message, v)])
  {
    var prompt := Trim(input);
    var message := MessageOr(e, FallbackMessage);
    var um, am := UserMessage(prompt, state, u), AssistantMessage("Error: " + message, v);
    var opening := [AddChatMessage(um), SubmitEdit(prompt)];
    var closing := [AddChatMessage(am), EditError(message)];
    assert OnFailure(e, v) == closing;
    FailedSubmission(input, state, e, request, resized, u, v);
    OpeningThenError(state, um, prompt, am, message);
    assert (opening + closing)[2..] == closing;
  }

  /**
   * As written, every request that returns an image still ends in `error`: the
   * missing `imageVersions` field throws a `TypeError` before the resize.
   */
  lemma AsWrittenSuccessEndsInError(input: string, state: EditorState, url: string, w: int, h: int,
                                    u: Stamp, v: Stamp)
    requires CanSubmit(input, state)
    ensures var sub := SubmitAsWritten(input, state, Returned(url, w, h), u, v);
      && Run(state, sub.actions).status == Error
      && Run(state, sub.actions).error == Some(ImageVersionsTypeError.message)
      && Run(state, sub.actions).editedImageUrl == state.editedImageUrl
      && sub.input == input
  {
    FailureTrace(input, state, ImageVersionsTypeError, Returned(url, w, h), Err(ImageVersionsTypeError), u, v);
  }

  /** An allowed submission is its opening pair followed by the settled actions. */
  lemma SubmitShape(input: string, state: EditorState, request: RequestOutcome, loads: ResizeLoads, png: string,
                    u: Stamp, v: Stamp)
    requires CanSubmit(input, state)
    ensures var (closing, succeeded) := Settlement(request, Resized(request, loads, png), v);
      SubmitWithResize(input, state, request, loads, png, u, v)
        == Submission(Opening(input, state, u) + closing, if succeeded then "" else input)
  {
  }

  lemma AppendTwice(log: seq<EditorAction>, first: seq<EditorAction>, second: seq<EditorAction>)
    ensures log + first + second == log + (first + second)
  {
  }

  /**
   * The `await resizeImageToMatch(...)` of the `try` block, with what the
   * call resolves to, or the request's own error when it threw; proved equal
   * to `Resized`.
   */
  method ResizeStep(request: RequestOutcome, loads: ResizeLoads, png: string) returns (resized: Result<string, Thrown>)
    ensures resized == Resized(request, loads, png)
  {
    match request {
      case Threw(e) => resized := Err(e);
      case Returned(url, _, _) =>
        var rendered := ResizeImageToMatch(url, loads.source, loads.reference, loads.reload);
        resized := if rendered.Ok? then Ok(ResolvedUrl(rendered.value, png)) else Err(rendered.error);
    }
  }

  /**
   * The rest of the `try` block once the resize has settled, and the `catch`
   * block: the actions dispatched, and whether the input is cleared. This is
   * the imperative counterpart of `Settlement`, proved equal to it.
   */
  method Settle(request: RequestOutcome, resized: Result<string, Thrown>, replyStamp: Stamp)
    returns (closing: seq<EditorAction>, succeeded: bool)
    ensures (closing, succeeded) == Settlement(request, resized, replyStamp)
  {
    closing, succeeded := [], false;
    var failure: Option<Thrown> := None;
    match request {
      case Threw(e) => failure := Some(e);
      case Returned(_, _, _) =>
        match resized {
          case Err(e) => failure := Some(e);
          case Ok(url) =>
            closing := [AddChatMessage(AssistantMessage(EditsReady, replyStamp)), EditComplete(url)];
            succeeded := true;
        }
    }
    // an abort is swallowed; anything else is reported
    if failure.Some? && !IsAbort(failure.value) {
      var message := MessageOr(failure.value, FallbackMessage);
      closing := [AddChatMessage(AssistantMessage("Error: " + message, replyStamp)), EditError(message)];
    }
  }

  // ---------- The component's refs ----------

  class AbortController {
    var aborted: bool

    constructor ()
      ensures !aborted
    {
      aborted := false;
    }

    method Abort()
      modifies this
      ensures aborted
    {
      aborted := true;
    }
  }

  /** The input text, `abortControllerRef`, and the actions dispatched so far. */
  class ChatInputSession {
    var input: string
    var controller: AbortController?
    var dispatched: seq<EditorAction>

    constructor ()
      ensures input == "" && controller == null && dispatched == []
    {
      input, controller, dispatched := "", null, [];
    }

    /**
     * `handleSubmit`: nothing when it may not submit; otherwise dispatch the
     * sequence for the outcome, with a fresh controller pending meanwhile and
     * cleared at the end (`finally`).
     */
    method HandleSubmit(state: EditorState, request: RequestOutcome, loads: ResizeLoads,
                        png: string, userStamp: Stamp, replyStamp: Stamp)
      modifies this
      ensures var sub := SubmitWithResize(old(input), state, request, loads, png, userStamp, replyStamp);
        dispatched == old(dispatched) + sub.actions && input == sub.input
      ensures controller == if CanSubmit(old(input), state) then null else old(controller)
    {
      if CanSubmit(input, state) {
        ghost var typed := input;
        var prompt := Trim(input);
        Submit(prompt, state, request, loads, png, userStamp, replyStamp);
        SubmitShape(typed, state, request, loads, png, userStamp, replyStamp);
      }
    }

    /**
     * The body of `handleSubmit` past its guard, for the trimmed `prompt`: the
     * opening pair, then the `try` block under a fresh controller, then `finally`.
     */
    method Submit(prompt: string, state: EditorState, request: RequestOutcome, loads: ResizeLoads,
                  png: string, userStamp: Stamp, replyStamp: Stamp)
      modifies this
      ensures var (closing, succeeded) := Settlement(request, Resized(request, loads, png), replyStamp);
        && dispatched == old(dispatched)
             + ([AddChatMessage(UserMessage(prompt, state, userStamp)), SubmitEdit(prompt)] + closing)
        && input == if succeeded then "" else old(input)
      ensures controller == null
    {
      ghost var before := dispatched;
      var opening := [AddChatMessage(UserMessage(prompt, state, userStamp)), SubmitEdit(prompt)];
      dispatched := dispatched + opening;
      var c := new AbortController();
      controller := c;
      var resized := ResizeStep(request, loads, png);
      var closing, succeeded := Settle(request, resized, replyStamp);
      dispatched := dispatched + closing;
      AppendTwice(before, opening, closing);
      if succeeded {
        input := "";
      }
      controller := null;
    }

    /** `handleCancel`: abort and clear a pending controller, then dispatch `CANCEL_EDIT`. */
    method HandleCancel()
      modifies this, controller
      ensures old(controller) != null ==> old(controller).aborted
      ensures controller == null
      ensures dispatched == old(dispatched) + [Unrecognised("CANCEL_EDIT")]
      ensures input == old(input)
    {
      if controller != null {
        controller.Abort();
        controller := null;
      }
      dispatched := dispatched + [Unrecognised("CANCEL_EDIT")];
    }
  }

  /** `CANCEL_EDIT` is not an action the reducer knows: cancelling leaves the session as it was. */
  lemma CancelIsNoOp(state: EditorState)
    ensures Run(state, [Unrecognised("CANCEL_EDIT")]) == state
  {
    assert [Unrecognised("CANCEL_EDIT")][1..] == [];
  }
}
