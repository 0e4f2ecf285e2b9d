/** The `MainApp` component of frontend/app.jsx (its log line calls it
    version 6.0): picker and drop zone both funnel into one PDF check, two
    model radio buttons, an extract button and a synthetic progress bar.
    The 500 ms interval is the event `Tick(d)` with the random draw as `d`;
    the 2000 ms timeout armed at the end of every submission is the event
    `Cooldown`; `extractReport` is split at its `await`s into
    `ExtractReportBegin` (up to the fetch), `ReplyArrived` (the fetch
    resolved: the interval stops and progress is forced to 100) and
    `ExtractReportComplete` (the body was read, or the fetch failed). */
module MainAppV6 {
  import opened Upload

  const InvalidFileMessage: string := "Please select a valid PDF file"
  const ProcessingFailedPrefix: string := "Processing failed: "

  /** The interval never lets progress pass this value. */
  const ProgressCap: real := 90.0
  /** `Math.random() * 15` lies in [0, 15). */
  const MaxIncrement: real := 15.0
  /** Value forced when a reply arrives. */
  const Complete: real := 100.0

  /** One firing of the interval, `Math.min(prev + d, 90)`: progress moves
      up by the draw, up to the cap and never past it. */
  function NextProgress(prev: real, d: real): (p: real)
    requires 0.0 <= d < MaxIncrement
    ensures p <= ProgressCap && p <= prev + d
    ensures p == prev + d || p == ProgressCap
    ensures prev <= ProgressCap ==> prev <= p
  {
    if prev + d <= ProgressCap then prev + d else ProgressCap
  }

  /** The caption under the progress bar. Each caption belongs to exactly
      one band of values, and the four bands cover every value. */
  function ProgressLabel(p: real): (s: string)
    ensures s == "Uploading file..." <==> p < 30.0
    ensures s == "Analyzing content..." <==> 30.0 <= p < 60.0
    ensures s == "Generating insights..." <==> 60.0 <= p < 90.0
    ensures s == "Finalizing report..." <==> 90.0 <= p
  {
    if p < 30.0 then "Uploading file..."
    else if p < 60.0 then "Analyzing content..."
    else if p < 90.0 then "Generating insights..."
    else "Finalizing report..."
  }

  /** The message `extractReport` stores in `errorMessage` when its request
      fails: a non-2xx reply shows its body text verbatim after a fixed
      prefix; a bad body or a failed fetch show the rejection's message. */
  function FailureMessage(r: Response): (m: string)
    requires !r.Ok?
    ensures r.HttpError? ==>
      |m| == |ProcessingFailedPrefix| + |r.bodyText| &&
      m[..|ProcessingFailedPrefix|] == ProcessingFailedPrefix &&
      m[|ProcessingFailedPrefix|..] == r.bodyText
    ensures !r.HttpError? ==> m == r.message
  {
    match r
    case HttpError(_, bodyText) => ProcessingFailedPrefix + bodyText
    case BadJson(message) => message
    case Transport(message) => message
  }

  class MainApp {
    var selectedFile: Option<FileHandle>
    var aiModel: ModelId
    var isProcessing: bool
    var downloadUrl: string
    var errorMessage: string
    var dragOver: bool
    var progress: real
    /** The progress interval is running. */
    var ticking: bool
    /** Two-second resets armed by finished submissions and not yet fired. */
    var pendingResets: nat

    /** Progress stays in [0, 100]; the interval runs only while a
        request is out, and while it runs progress is at or under the cap;
        the selection is absent or a PDF, and present while a request is
        out. */
    ghost predicate Valid()
      reads this
    {
      && 0.0 <= progress <= Complete
      && (ticking ==> isProcessing && progress <= ProgressCap)
      && (isProcessing ==> selectedFile.Some?)
      && (selectedFile.None? || IsPdf(selectedFile))
    }

    constructor ()
      ensures Valid()
      ensures selectedFile == None && aiModel == DefaultModel && !isProcessing
      ensures downloadUrl == "" && errorMessage == "" && !dragOver
      ensures progress == 0.0 && !ticking && pendingResets == 0
    {
      selectedFile := None;
      aiModel := DefaultModel;
      isProcessing := false;
      downloadUrl := "";
      errorMessage := "";
      dragOver := false;
      progress := 0.0;
      ticking := false;
      pendingResets := 0;
    }

    /** The extract button is enabled unless `isProcessing || !selectedFile`. */
    predicate SubmitEnabled()
      reads this
    {
      !isProcessing && selectedFile.Some?
    }

    /** The caption shown, if any: the bar is rendered only while a request
        is out. While the interval runs the caption follows the bands up to
        "Finalizing report..." at the cap; once the reply has arrived and
        its body is being read, the bar stands at 100 under that caption. */
    function VisibleLabel(): (caption: Option<string>)
      reads this
      requires Valid()
      ensures caption.Some? <==> isProcessing
      ensures caption.Some? ==> caption.value == ProgressLabel(progress)
      ensures caption == Some("Finalizing report...") <==> isProcessing && progress >= ProgressCap
      ensures ticking && caption == Some("Finalizing report...") ==> progress == ProgressCap
    {
      if isProcessing then Some(ProgressLabel(progress)) else None
    }

    /** `handleFileSelection`, the one check both the picker and the drop
        zone go through: a PDF replaces the selection and clears the
        outcome; anything else, or nothing, sets the fixed error and leaves
        the selection and the link alone. */
    method HandleFileSelection(file: Option<FileHandle>)
      requires Valid()
      modifies this`selectedFile, this`errorMessage, this`downloadUrl
      ensures Valid()
      ensures IsPdf(file) ==> selectedFile == file && errorMessage == "" && downloadUrl == ""
      ensures !IsPdf(file) ==>
        errorMessage == InvalidFileMessage &&
        selectedFile == old(selectedFile) && downloadUrl == old(downloadUrl)
    {
      if file.Some? && file.value.mediaType == PdfType {
        selectedFile := file;
        errorMessage := "";
        downloadUrl := "";
      } else {
        errorMessage := InvalidFileMessage;
      }
    }

    /** `onFileSelect`: the picked item goes through the PDF check. */
    method OnFileSelect(picked: Option<FileHandle>)
      requires Valid()
      modifies this`selectedFile, this`errorMessage, this`downloadUrl
      ensures Valid()
      ensures IsPdf(picked) ==> selectedFile == picked && errorMessage == "" && downloadUrl == ""
      ensures !IsPdf(picked) ==>
        errorMessage == InvalidFileMessage &&
        selectedFile == old(selectedFile) && downloadUrl == old(downloadUrl)
    {
      HandleFileSelection(picked);
    }

    /** A drop ends the drag, then the dropped item goes through the same
        PDF check as a picked one. */
    method HandleDrop(dropped: Option<FileHandle>)
      requires Valid()
      modifies this`dragOver, this`selectedFile, this`errorMessage, this`downloadUrl
      ensures Valid() && !dragOver
      ensures IsPdf(dropped) ==> selectedFile == dropped && errorMessage == "" && downloadUrl == ""
      ensures !IsPdf(dropped) ==>
        errorMessage == InvalidFileMessage &&
        selectedFile == old(selectedFile) && downloadUrl == old(downloadUrl)
    {
      dragOver := false;
      HandleFileSelection(dropped);
    }

    method HandleDragOver()
      modifies this`dragOver
      ensures dragOver
    {
      dragOver := true;
    }

    method HandleDragLeave()
      modifies this`dragOver
      ensures !dragOver
    {
      dragOver := false;
    }

    /** The two radio buttons, each setting its own identifier. */
    method SelectModel(m: ModelId)
      modifies this`aiModel
      ensures aiModel == m
    {
      aiModel := m;
    }

    /** `extractReport` up to its `await`. Its only caller is the extract
        button, which is disabled while a request is out. Without a
        selection nothing happens; otherwise the request is out, progress
        restarts at 0 under a running interval, and the request carries the
        selection and the model as they are now. */
    method ExtractReportBegin() returns (request: Option<Payload>)
      requires Valid() && !isProcessing
      modifies this`isProcessing, this`progress, this`ticking
      ensures Valid()
      ensures request.Some? <==> old(selectedFile).Some?
      ensures old(selectedFile).None? ==>
        !isProcessing && !ticking && progress == old(progress)
      ensures old(selectedFile).Some? ==>
        isProcessing && ticking && progress == 0.0 &&
        request.value == Payload(old(selectedFile).value, aiModel)
    {
      if selectedFile.None? {
        return None;
      }
      isProcessing := true;
      progress := 0.0;
      ticking := true;
      request := Some(Payload(selectedFile.value, aiModel));
    }

    /** One firing of the interval while the request is out: progress never
        goes down and never passes the cap, so it stays below 100. */
    method Tick(d: real)
      requires Valid() && ticking
      requires 0.0 <= d < MaxIncrement
      modifies this`progress
      ensures Valid()
      ensures progress == NextProgress(old(progress), d)
      ensures old(progress) <= progress <= ProgressCap
    {
      progress := NextProgress(progress, d);
    }

    /** The fetch resolved with a reply, good or bad: the interval stops
        and progress is forced to 100 before the status is looked at. The
        request is still out while the body is read. */
    method ReplyArrived()
      requires Valid() && ticking
      modifies this`ticking, this`progress
      ensures Valid()
      ensures isProcessing && !ticking && progress == Complete
    {
      ticking := false;
      progress := Complete;
    }

    /** The end of `extractReport`. A reply (an `Ok`, `BadJson` or
        `HttpError` response) comes after `ReplyArrived`, whose interval is
        already stopped; a failed fetch (`Transport`) comes with the
        interval still running, stops it in the `catch` and leaves progress
        where the interval left it. Success shows the link and clears the
        error; failure sets the error and keeps the link; the request is no
        longer out and one more reset is armed. */
    method ExtractReportComplete(response: Response)
      requires Valid() && isProcessing
      requires ticking <==> response.Transport?
      modifies this`ticking, this`isProcessing,
        this`downloadUrl, this`errorMessage, this`pendingResets
      ensures Valid()
      ensures !ticking && !isProcessing && pendingResets == old(pendingResets) + 1
      ensures progress == old(progress)
      ensures response.Ok? ==> downloadUrl == response.pdfUrl && errorMessage == ""
      ensures !response.Ok? ==>
        errorMessage == FailureMessage(response) && downloadUrl == old(downloadUrl)
    {
      ticking := false;
      if response.Ok? {
        downloadUrl := response.pdfUrl;
        errorMessage := "";
      } else {
        errorMessage := FailureMessage(response);
      }
      isProcessing := false;
      pendingResets := pendingResets + 1;
    }

    /** A two-second reset firing: progress goes back to 0 and nothing else
        changes, whatever is going on at the time. */
    method Cooldown()
      requires Valid() && pendingResets > 0
      modifies this`progress, this`pendingResets
      ensures Valid()
      ensures progress == 0.0 && pendingResets == old(pendingResets) - 1
    {
      progress := 0.0;
      pendingResets := pendingResets - 1;
    }
  }

  /** A submission observed from the outside: pick a PDF, extract, let the
      interval fire once per draw, receive the reply (unless the fetch
      fails), receive the outcome, let the reset fire. The values the bar
      shows while the interval runs start at 0, never go down and stay at
      or under the cap; a reply puts 100 on screen under "Finalizing
      report..." while its body is read, a failed fetch does not; after the
      reset progress is 0 again. */
  method ProgressRun(report: FileHandle, draws: seq<real>, response: Response)
    returns (shown: seq<real>, whileReading: Option<(real, string)>, atOutcome: real, afterReset: real)
    requires report.mediaType == PdfType
    requires forall i :: 0 <= i < |draws| ==> 0.0 <= draws[i] < MaxIncrement
    ensures |shown| == |draws| + 1 && shown[0] == 0.0
    ensures forall i, j :: 0 <= i <= j < |shown| ==> shown[i] <= shown[j]
    ensures forall i :: 0 <= i < |shown| ==> shown[i] <= ProgressCap
    ensures whileReading.Some? <==> !response.Transport?
    ensures whileReading.Some? ==> whileReading.value == (Complete, "Finalizing report...")
    ensures !response.Transport? ==> atOutcome == Complete
    ensures response.Transport? ==> atOutcome == shown[|shown| - 1]
    ensures afterReset == 0.0
  {
    var app := new MainApp();
    app.OnFileSelect(Some(report));
    var request := app.ExtractReportBegin();
    shown := [app.progress];
    var i := 0;
    while i < |draws|
      invariant 0 <= i <= |draws|
      invariant app.Valid() && app.isProcessing && app.ticking && app.pendingResets == 0
      invariant |shown| == i + 1 && shown[0] == 0.0 && shown[i] == app.progress
      invariant forall a, b :: 0 <= a <= b < |shown| ==> shown[a] <= shown[b]
      invariant forall a :: 0 <= a < |shown| ==> shown[a] <= ProgressCap
    {
      app.Tick(draws[i]);
      shown := shown + [app.progress];
      i := i + 1;
    }
    whileReading := None;
    if !response.Transport? {
      app.ReplyArrived();
      var caption := app.VisibleLabel();
      whileReading := Some((app.progress, caption.value));
    }
    app.ExtractReportComplete(response);
    atOutcome := app.progress;
    app.Cooldown();
    afterReset := app.progress;
  }

  /** The reset armed by one submission is not tied to it: when a second
      submission starts within two seconds, the first one's reset fires
      while the second request is out and pulls its progress back to 0. */
  method StaleResetDuringRetry(report: FileHandle, pdfUrl: string, d: real)
    returns (before: real, after: real, processing: bool)
    requires report.mediaType == PdfType
    requires 0.0 < d < MaxIncrement
    ensures processing && before == d && after == 0.0 && after < before
  {
    var app := new MainApp();
    app.OnFileSelect(Some(report));
    var first := app.ExtractReportBegin();
    app.ReplyArrived();
    app.ExtractReportComplete(Ok(pdfUrl));
    var second := app.ExtractReportBegin();
    app.Tick(d);
    before := app.progress;
    app.Cooldown();
    after, processing := app.progress, app.isProcessing;
  }

  /** A rejected pick after a good one: the good selection and the link
      stay, the fixed error is shown, and the button stays enabled. */
  method RejectedPickKeepsSelection(report: FileHandle, other: Option<FileHandle>)
    returns (selected: Option<FileHandle>, errorMessage: string, enabled: bool)
    requires report.mediaType == PdfType
    requires !IsPdf(other)
    ensures selected == Some(report)
    ensures errorMessage == InvalidFileMessage && enabled
  {
    var app := new MainApp();
    app.OnFileSelect(Some(report));
    app.HandleDrop(other);
    selected, errorMessage, enabled := app.selectedFile, app.errorMessage, app.SubmitEnabled();
  }
}
