/**
 * The upload front end of components/image-dropzone.tsx: file validation, the
 * simulated progress shown while the file is read, the minimum display delay
 * before `UPLOAD_COMPLETE`, and the window-wide drag-enter/leave counter that
 * drives the drop overlay.
 *
 * `Math.random()` draws become the increments of the progress timer, the
 * `FileReader` result becomes a `ReadOutcome`, and `Date.now() - startTime`
 * becomes the `elapsed` parameter.
 */
module ImageDropzone {
  import opened Common
  import opened EditorStore

  // ---------- validateFile ----------

  const AcceptedTypes: seq<string> := ["image/png", "image/jpeg"]
  const MaxSizeBytes: nat := 10 * 1024 * 1024
  const UnsupportedTypeMessage := "Only PNG and JPEG images are supported."
  const TooLargeMessage := "Image must be less than 10MB."
  const ReadFailedMessage := "Failed to read the image file."

  /** `validateFile`: the error message for a file that may not be uploaded, `None` for one that may. */
  function ValidateFile(file: FileInfo): Option<string> {
    if file.mimeType !in AcceptedTypes then Some(UnsupportedTypeMessage)
    else if file.size > MaxSizeBytes then Some(TooLargeMessage)
    else None
  }

  /**
   * Only PNG and JPEG files of at most 10 MiB pass; the type is checked
   * first, so an oversized file of the wrong type gets the type message.
   */
  lemma ValidateFileIff(file: FileInfo)
    ensures ValidateFile(file) == None <==>
      (file.mimeType == "image/png" || file.mimeType == "image/jpeg") && file.size <= 10485760
    ensures file.mimeType != "image/png" && file.mimeType != "image/jpeg" ==>
      ValidateFile(file) == Some("Only PNG and JPEG images are supported.")
    ensures (file.mimeType == "image/png" || file.mimeType == "image/jpeg") && file.size > 10485760 ==>
      ValidateFile(file) == Some("Image must be less than 10MB.")
  {
  }

  /** The boundary: a file of exactly 10 MiB passes, one byte more is rejected. */
  lemma SizeBoundary(mimeType: string)
    requires mimeType in AcceptedTypes
    ensures ValidateFile(FileInfo(mimeType, 10485760)) == None
    ensures ValidateFile(FileInfo(mimeType, 10485761)) == Some(TooLargeMessage)
  {
  }

  // ---------- Simulated progress ----------

  /** `Math.round` on a real argument: the nearest integer, halves rounded up. */
  function Round(x: real): (n: int)
    ensures x - 0.5 < n as real <= x + 0.5
  {
    (x + 0.5).Floor
  }

  lemma RoundMonotone(x: real, y: real)
    requires x <= y
    ensures Round(x) <= Round(y)
  {
  }

  function Min(a: real, b: real): real {
    if a <= b then a else b
  }

  /** One timer draw: `Math.random() * 15`. */
  predicate ValidIncrements(increments: seq<real>) {
    forall i :: 0 <= i < |increments| ==> 0.0 <= increments[i] < 15.0
  }

  /** `currentProgress` after the timer has fired once per increment. */
  function ProgressAfter(increments: seq<real>): (p: real)
    ensures p <= 90.0
    ensures ValidIncrements(increments) ==> 0.0 <= p
    decreases |increments|
  {
    if increments == [] then 0.0
    else
      var prefix := increments[..|increments| - 1];
      assert ValidIncrements(increments) ==> ValidIncrements(prefix) by {
        if ValidIncrements(increments) {
          forall i | 0 <= i < |prefix| ensures 0.0 <= prefix[i] < 15.0 {
            assert prefix[i] == increments[i];
          }
        }
      }
      Min(ProgressAfter(prefix) + increments[|increments| - 1], 90.0)
  }

  /** A later reading is never lower than an earlier one. */
  lemma {:induction false} ProgressMonotone(increments: seq<real>, j: nat)
    requires ValidIncrements(increments) && j <= |increments|
    ensures ProgressAfter(increments[..j]) <= ProgressAfter(increments)
    decreases |increments|
  {
    if j < |increments| {
      var prefix := increments[..|increments| - 1];
      assert ValidIncrements(prefix) by {
        forall i | 0 <= i < |prefix| ensures 0.0 <= prefix[i] < 15.0 {
          assert prefix[i] == increments[i];
        }
      }
      ProgressMonotone(prefix, j);
      assert prefix[..j] == increments[..j];
    } else {
      assert increments[..j] == increments;
    }
  }

  /** The values dispatched as `SET_UPLOAD_PROGRESS`, one per timer tick. */
  function ReportedProgress(increments: seq<real>): seq<int> {
    seq(|increments|, i requires 0 <= i < |increments| => Round(ProgressAfter(increments[..i + 1])))
  }

  /** The reported values lie in 0..90 and never decrease. */
  lemma ReportedProgressBounded(increments: seq<real>)
    requires ValidIncrements(increments)
    ensures forall i :: 0 <= i < |increments| ==> 0 <= ReportedProgress(increments)[i] <= 90
    ensures forall i, j :: 0 <= i <= j < |increments| ==>
      ReportedProgress(increments)[i] <= ReportedProgress(increments)[j]
  {
    var r := ReportedProgress(increments);
    forall i | 0 <= i < |increments| ensures 0 <= r[i] <= 90 {
      var prefix := increments[..i + 1];
      assert ValidIncrements(prefix) by {
        forall k | 0 <= k < |prefix| ensures 0.0 <= prefix[k] < 15.0 {
          assert prefix[k] == increments[k];
        }
      }
    }
    forall i, j | 0 <= i <= j < |increments| ensures r[i] <= r[j] {
      var longer := increments[..j + 1];
      assert ValidIncrements(longer) by {
        forall k | 0 <= k < |longer| ensures 0.0 <= longer[k] < 15.0 {
          assert longer[k] == increments[k];
        }
      }
      ProgressMonotone(longer, i + 1);
      assert longer[..i + 1] == increments[..i + 1];
      RoundMonotone(ProgressAfter(increments[..i + 1]), ProgressAfter(longer));
    }
  }

  /** The interval callback, run once per increment: clamp at 90 and report the rounded value. */
  method SimulateProgress(increments: seq<real>) returns (reported: seq<int>)
    ensures reported == ReportedProgress(increments)
  {
    var current := 0.0;
    reported := [];
    for i := 0 to |increments|
      invariant current == ProgressAfter(increments[..i])
      invariant reported == ReportedProgress(increments)[..i]
    {
      assert increments[..i + 1][..i] == increments[..i];
      current := Min(current + increments[i], 90.0);
      reported := reported + [Round(current)];
    }
    assert increments[..|increments|] == increments;
  }

  /** The wait before `UPLOAD_COMPLETE`: what is left of three seconds after the read. */
  function UploadDelay(elapsed: int): (ms: int)
    ensures 0 <= ms
    ensures elapsed >= 0 ==> ms <= 3000
    ensures ms == 0 <==> elapsed >= 3000
    ensures ms > 0 ==> elapsed + ms == 3000
  {
    if 3000 - elapsed > 0 then 3000 - elapsed else 0
  }

  // ---------- handleFile ----------

  /** How `FileReader.readAsDataURL` settled. */
  datatype ReadOutcome = ReadLoaded(dataUrl: string) | ReadFailed

  function ProgressActions(reported: seq<int>): seq<EditorAction> {
    seq(|reported|, i requires 0 <= i < |reported| => SetUploadProgress(reported[i]))
  }

  /** Everything `handleFile` dispatches, in order. */
  function HandleFileActions(file: FileInfo, increments: seq<real>, read: ReadOutcome): seq<EditorAction> {
    if ValidateFile(file).Some? then []
    else
      [StartUpload(file)] + ProgressActions(ReportedProgress(increments))
      + match read
        case ReadLoaded(url) => [SetUploadProgress(100), UploadComplete(url)]
        case ReadFailed => []
  }

  /** The dropzone's `error` after `handleFile`. */
  function UploadError(file: FileInfo, read: ReadOutcome): Option<string> {
    if ValidateFile(file).Some? then ValidateFile(file)
    else if read.ReadFailed? then Some(ReadFailedMessage)
    else None
  }

  /** An invalid file only sets the error: no `START_UPLOAD` or any other action. */
  lemma InvalidFileDispatchesNothing(file: FileInfo, increments: seq<real>, read: ReadOutcome)
    requires ValidateFile(file).Some?
    ensures HandleFileActions(file, increments, read) == []
    ensures UploadError(file, read) == ValidateFile(file)
  {
  }

  /**
   * Only the load dispatches a progress above 90: exactly one `SET_UPLOAD_PROGRESS`
   * of 100, second to last; every timer tick reports at most 90.
   */
  lemma HundredOnlyOnLoad(file: FileInfo, increments: seq<real>, read: ReadOutcome)
    requires ValidIncrements(increments)
    ensures var acts := HandleFileActions(file, increments, read);
      forall i :: 0 <= i < |acts| && acts[i].SetUploadProgress? && acts[i].progress > 90 ==>
        read.ReadLoaded? && i == |acts| - 2 && acts[i].progress == 100
  {
    var acts := HandleFileActions(file, increments, read);
    if ValidateFile(file).None? {
      var ticks := ProgressActions(ReportedProgress(increments));
      ReportedProgressBounded(increments);
      assert forall k :: 1 <= k <= |ticks| ==> acts[k] == ticks[k - 1];
    }
  }

  /** Timer ticks change only `uploadProgress`, leaving the last reported value. */
  lemma {:induction false} RunProgressActions(state: EditorState, reported: seq<int>)
    ensures Run(state, ProgressActions(reported))
      == if reported == [] then state else state.(uploadProgress := reported[|reported| - 1])
    decreases |reported|
  {
    var acts := ProgressActions(reported);
    if reported != [] {
      var next := state.(uploadProgress := reported[0]);
      assert acts[0] == SetUploadProgress(reported[0]);
      EditorStore.UploadActions(state, FileInfo("", 0), reported[0], "");
      assert acts[1..] == ProgressActions(reported[1..]);
      RunProgressActions(next, reported[1..]);
    }
  }

  lemma StartSteps(state: EditorState, file: FileInfo)
    ensures Run(state, [StartUpload(file)]) == state.(status := Uploading, uploadProgress := 0, error := None)
  {
    RunOfOne(state, StartUpload(file));
  }

  lemma LoadSteps(state: EditorState, url: string)
    ensures Run(state, [SetUploadProgress(100), UploadComplete(url)])
      == state.(status := Selection, imageDataUrl := Some(url), uploadProgress := 100)
  {
    RunOfTwo(state, SetUploadProgress(100), UploadComplete(url));
  }

  /**
   * A valid file that loads ends the session in `selection` showing the read
   * image, at 100%, with no error; only those fields change.
   */
  lemma UploadLoadedTrace(state: EditorState, file: FileInfo, increments: seq<real>, url: string)
    requires ValidateFile(file).None?
    ensures Run(state, HandleFileActions(file, increments, ReadLoaded(url)))
      == state.(status := Selection, imageDataUrl := Some(url), uploadProgress := 100, error := None)
  {
    var ticks := ProgressActions(ReportedProgress(increments));
    var s1 := state.(status := Uploading, uploadProgress := 0, error := None);
    var done := [SetUploadProgress(100), UploadComplete(url)];
    assert HandleFileActions(file, increments, ReadLoaded(url)) == [StartUpload(file)] + ticks + done;
    RunAppend(state, [StartUpload(file)] + ticks, done);
    RunAppend(state, [StartUpload(file)], ticks);
    StartSteps(state, file);
    RunProgressActions(s1, ReportedProgress(increments));
    LoadSteps(Run(s1, ticks), url);
  }

  /**
   * A read failure stops the timer but dispatches nothing more: the session
   * stays in `uploading`, at the last reported progress (at most 90), or at 0
   * when the timer never fired.
   */
  lemma UploadReadFailedTrace(state: EditorState, file: FileInfo, increments: seq<real>)
    requires ValidateFile(file).None? && ValidIncrements(increments)
    ensures var s := Run(state, HandleFileActions(file, increments, ReadFailed));
      && s.status == Uploading
      && 0 <= s.uploadProgress <= 90
      && s.(uploadProgress := 0) == state.(status := Uploading, uploadProgress := 0, error := None)
    ensures increments != [] ==>
      (Run(state, HandleFileActions(file, increments, ReadFailed)).uploadProgress
         == ReportedProgress(increments)[|increments| - 1])
    ensures increments == [] ==> Run(state, HandleFileActions(file, increments, ReadFailed)).uploadProgress == 0
    ensures UploadError(file, ReadFailed) == Some(ReadFailedMessage)
  {
    var reported := ReportedProgress(increments);
    var ticks := ProgressActions(reported);
    var s1 := state.(status := Uploading, uploadProgress := 0, error := None);
    assert HandleFileActions(file, increments, ReadFailed) == [StartUpload(file)] + ticks;
    RunAppend(state, [StartUpload(file)], ticks);
    StartSteps(state, file);
    RunProgressActions(s1, reported);
    ReportedProgressBounded(increments);
  }

  // ---------- Drag overlay ----------

  datatype DragEvent = DragEnter | DragLeave

  /** `handleDragEnter` on (counter, overlay shown). */
  function EnterStep(counter: int, over: bool): (int, bool) {
    (counter + 1, if counter + 1 == 1 then true else over)
  }

  /** `handleDragLeave` on (counter, overlay shown). */
  function LeaveStep(counter: int, over: bool): (int, bool) {
    (counter - 1, if counter - 1 == 0 then false else over)
  }

  function DragAfter(counter: int, over: bool, events: seq<DragEvent>): (int, bool)
    decreases |events|
  {
    if events == [] then (counter, over)
    else
      var next := if events[0] == DragEnter then EnterStep(counter, over) else LeaveStep(counter, over);
      DragAfter(next.0, next.1, events[1..])
  }

  /** The overlay is shown exactly while the counter is positive. */
  predicate OverlayTracksCounter(counter: int, over: bool) {
    over <==> counter > 0
  }

  /**
   * From any consistent start (in particular the initial 0 and hidden, or
   * the state after a drop) every sequence of enters and leaves keeps the
   * overlay shown exactly while the counter is positive, and the counter is
   * the start plus the enters minus the leaves.
   */
  lemma {:induction false} DragOverlayTracksCounter(counter: int, over: bool, events: seq<DragEvent>)
    requires OverlayTracksCounter(counter, over)
    ensures OverlayTracksCounter(DragAfter(counter, over, events).0, DragAfter(counter, over, events).1)
    ensures DragAfter(counter, over, events).0 == counter + Count(events, DragEnter) - Count(events, DragLeave)
    decreases |events|
  {
    if events != [] {
      var next := if events[0] == DragEnter then EnterStep(counter, over) else LeaveStep(counter, over);
      DragOverlayTracksCounter(next.0, next.1, events[1..]);
      assert events == [events[0]] + events[1..];
    }
  }

  function Count(events: seq<DragEvent>, e: DragEvent): nat
    decreases |events|
  {
    if events == [] then 0 else (if events[0] == e then 1 else 0) + Count(events[1..], e)
  }

  /**
   * Enter and leave are balanced: an enter followed by its leave restores
   * the counter and the overlay.
   */
  lemma EnterThenLeaveRestores(counter: int, over: bool)
    requires OverlayTracksCounter(counter, over)
    ensures DragAfter(counter, over, [DragEnter, DragLeave]) == (counter, over)
  {
    assert [DragEnter, DragLeave][1..] == [DragLeave];
    assert [DragLeave][1..] == [];
  }

  /**
   * A leave with no matching enter drives the counter below zero; the next
   * enter then brings it only to 0 and does not show the overlay.
   */
  lemma StrayLeaveHidesNextEnter()
    ensures DragAfter(0, false, [DragLeave, DragEnter]) == (0, false)
  {
    assert [DragLeave, DragEnter][1..] == [DragEnter];
    assert [DragEnter][1..] == [];
  }

  // ---------- The component ----------

  /** The dropzone's `error` and `isDragOver` state, `dragCounterRef`, and the actions it dispatched. */
  class Dropzone {
    var error: Option<string>
    var isDragOver: bool
    var dragCounter: int
    var dispatched: seq<EditorAction>

    predicate Valid()
      reads this
    {
      OverlayTracksCounter(dragCounter, isDragOver)
    }

    constructor ()
      ensures Valid()
      ensures error == None && !isDragOver && dragCounter == 0 && dispatched == []
    {
      error, isDragOver, dragCounter, dispatched := None, false, 0, [];
    }

    /**
     * `handleFile`: validate, then dispatch `START_UPLOAD`, the progress ticks
     * and, on load, 100 and `UPLOAD_COMPLETE` after `delay` milliseconds.
     */
    method HandleFile(file: FileInfo, increments: seq<real>, read: ReadOutcome, elapsed: int)
      returns (delay: Option<int>)
      modifies this`error, this`dispatched
      ensures dispatched == old(dispatched) + HandleFileActions(file, increments, read)
      ensures error == UploadError(file, read)
      ensures delay == if ValidateFile(file).None? && read.ReadLoaded? then Some(UploadDelay(elapsed)) else None
    {
      delay := None;
      var validationError := ValidateFile(file);
      if validationError.Some? {
        error := validationError;
        return;
      }
      error := None;
      dispatched := dispatched + [StartUpload(file)];
      var reported := SimulateProgress(increments);
      var ticks := ProgressActions(reported);
      dispatched := dispatched + ticks;
      match read {
        case ReadLoaded(url) =>
          dispatched := dispatched + [SetUploadProgress(100)];
          delay := Some(UploadDelay(elapsed));
          dispatched := dispatched + [UploadComplete(url)];
        case ReadFailed =>
          error := Some(ReadFailedMessage);
      }
    }

    method HandleDragEnter()
      modifies this`dragCounter, this`isDragOver
      requires Valid()
      ensures Valid()
      ensures (dragCounter, isDragOver) == EnterStep(old(dragCounter), old(isDragOver))
    {
      dragCounter := dragCounter + 1;
      if dragCounter == 1 {
        isDragOver := true;
      }
    }

    method HandleDragLeave()
      modifies this`dragCounter, this`isDragOver
      requires Valid()
      ensures Valid()
      ensures (dragCounter, isDragOver) == LeaveStep(old(dragCounter), old(isDragOver))
    {
      dragCounter := dragCounter - 1;
      if dragCounter == 0 {
        isDragOver := false;
      }
    }

    /** `handleDrop`: reset the counter, hide the overlay, and handle the first file only. */
    method HandleDrop(files: seq<FileInfo>, increments: seq<real>, read: ReadOutcome, elapsed: int)
      returns (delay: Option<int>)
      modifies this
      ensures Valid()
      ensures dragCounter == 0 && !isDragOver
      ensures files == [] ==> dispatched == old(dispatched) && error == old(error) && delay == None
      ensures files != [] ==>
        && dispatched == old(dispatched) + HandleFileActions(files[0], increments, read)
        && error == UploadError(files[0], read)
        && delay == if ValidateFile(files[0]).None? && read.ReadLoaded? then Some(UploadDelay(elapsed)) else None
    {
      dragCounter := 0;
      isDragOver := false;
      delay := None;
      if files != [] {
        delay := HandleFile(files[0], increments, read, elapsed);
      }
    }
  }
}
