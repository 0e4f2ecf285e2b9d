/** The `App` component of frontend/src/App.jsx: a drop zone and a file
    input feeding one upload, a model selector, an extract button and a
    clear button. Each React state hook is a field; each handler a method.
    `handleSubmit` is split at its `await` into `HandleSubmitBegin`, which
    returns the request it issues, and `HandleSubmitComplete`, which
    receives the outcome. */
module App {
  import opened Upload
  import opened Numerals

  const ServerErrorPrefix: string := "Server error "

  /** Reads a message of the form `Server error <status>` back. */
  function ParseServerError(m: string): Option<nat>
  {
    if |m| >= |ServerErrorPrefix| && m[..|ServerErrorPrefix|] == ServerErrorPrefix
    then ParseDecimal(m[|ServerErrorPrefix|..])
    else None
  }

  /** The message `handleSubmit` stores in `error` when its request fails:
      a non-2xx reply shows only the decimal text of its status after the
      fixed prefix, and the status reads back from the message (the body is
      dropped); a bad body or a failed fetch show the rejection's own
      message. */
  function FailureMessage(r: Response): (m: string)
    requires !r.Ok?
    ensures r.HttpError? ==> m == ServerErrorPrefix + Decimal(r.status)
    ensures r.HttpError? ==> ParseServerError(m) == Some(r.status)
    ensures !r.HttpError? ==> m == r.message
  {
    match r
    case HttpError(status, _) =>
      ParseDecimalRoundTrip(status);
      var m := ServerErrorPrefix + Decimal(status);
      assert m[..|ServerErrorPrefix|] == ServerErrorPrefix;
      assert m[|ServerErrorPrefix|..] == Decimal(status);
      m
    case BadJson(message) => message
    case Transport(message) => message
  }

  class App {
    var file: Option<FileHandle>
    var model: ModelId
    var loading: bool
    var outputUrl: string
    var error: string
    var dragOver: bool

    constructor ()
      ensures file == None && model == DefaultModel && !loading
      ensures outputUrl == "" && error == "" && !dragOver
    {
      file := None;
      model := DefaultModel;
      loading := false;
      outputUrl := "";
      error := "";
      dragOver := false;
    }

    /** The extract button is enabled unless `loading || !file`. */
    predicate SubmitEnabled()
      reads this
    {
      !loading && file.Some?
    }

    /** The clear button is enabled unless `loading`. */
    predicate ClearEnabled()
      reads this
    {
      !loading
    }

    /** The file input: whatever was picked, PDF or not, or nothing when the
        dialog was cancelled, becomes the file; the outcome is cleared. */
    method HandleFileChange(picked: Option<FileHandle>)
      modifies this`file, this`error, this`outputUrl
      ensures file == picked && error == "" && outputUrl == ""
    {
      file := picked;
      error := "";
      outputUrl := "";
    }

    /** A drop ends the drag; only a PDF replaces the file and clears the
        outcome, anything else or nothing leaves them as they were. */
    method HandleDrop(dropped: Option<FileHandle>)
      modifies this`dragOver, this`file, this`error, this`outputUrl
      ensures !dragOver
      ensures IsPdf(dropped) ==> file == dropped && error == "" && outputUrl == ""
      ensures !IsPdf(dropped) ==>
        file == old(file) && error == old(error) && outputUrl == old(outputUrl)
    {
      dragOver := false;
      if dropped.Some? && dropped.value.mediaType == PdfType {
        file := dropped;
        error := "";
        outputUrl := "";
      }
    }

    method HandleDragOver()
      modifies this`dragOver
      ensures dragOver
    {
      dragOver := true;
    }

    method HandleDragLeave()
      modifies this`dragOver
      ensures !dragOver
    {
      dragOver := false;
    }

    /** The `<select>` offers exactly the two model identifiers. */
    method SelectModel(m: ModelId)
      modifies this`model
      ensures model == m
    {
      model := m;
    }

    /** The inline handler of the clear button. */
    method Clear()
      modifies this`file, this`outputUrl, this`error
      ensures file == None && outputUrl == "" && error == ""
    {
      file := None;
      outputUrl := "";
      error := "";
    }

    /** `handleSubmit` up to its `await`: without a file nothing happens and
        no request is issued; otherwise `loading` is raised and the request
        carries the file and the model as they are now. */
    method HandleSubmitBegin() returns (request: Option<Payload>)
      modifies this`loading
      ensures request.Some? <==> old(file).Some?
      ensures old(file).None? ==> loading == old(loading)
      ensures old(file).Some? ==> loading && request.value == Payload(old(file).value, model)
    {
      if file.None? {
        return None;
      }
      loading := true;
      request := Some(Payload(file.value, model));
    }

    /** `handleSubmit` after its `await`: success shows the link and keeps
        any earlier error; failure sets the error and keeps any earlier
        link; `loading` drops in every case. */
    method HandleSubmitComplete(response: Response)
      modifies this`loading, this`outputUrl, this`error
      ensures !loading
      ensures response.Ok? ==> outputUrl == response.pdfUrl && error == old(error)
      ensures !response.Ok? ==> error == FailureMessage(response) && outputUrl == old(outputUrl)
    {
      match response {
        case Ok(pdfUrl) =>
          outputUrl := pdfUrl;
        case _ =>
          error := FailureMessage(response);
      }
      loading := false;
    }
  }

  /** A request carries the file and model of the moment the submit began:
      dropping another PDF and switching model while it is in flight change
      the component but not the payload already sent. */
  method PayloadCapturedAtSubmit(first: FileHandle, second: FileHandle)
    returns (request: Option<Payload>, fileNow: Option<FileHandle>, modelNow: ModelId)
    requires second.mediaType == PdfType
    ensures request == Some(Payload(first, Pro))
    ensures fileNow == Some(second) && modelNow == Flash
  {
    var app := new App();
    app.HandleFileChange(Some(first));
    app.SelectModel(Pro);
    request := app.HandleSubmitBegin();
    app.HandleDrop(Some(second));
    app.SelectModel(Flash);
    fileNow, modelNow := app.file, app.model;
  }

  /** A failed attempt followed by a successful retry of the same file
      leaves both the error of the first attempt and the link of the
      second on display: success does not clear `error`. */
  method RetryKeepsEarlierError(report: FileHandle, status: nat, pdfUrl: string)
    returns (error: string, outputUrl: string, loading: bool)
    ensures ParseServerError(error) == Some(status)
    ensures outputUrl == pdfUrl && !loading
  {
    var app := new App();
    app.HandleFileChange(Some(report));
    var first := app.HandleSubmitBegin();
    app.HandleSubmitComplete(HttpError(status, "internal error"));
    var second := app.HandleSubmitBegin();
    app.HandleSubmitComplete(Ok(pdfUrl));
    error, outputUrl, loading := app.error, app.outputUrl, app.loading;
  }

  /** The picker applies no type check, unlike the drop zone: a non-PDF
      picked file is kept, the same file dropped is ignored. */
  method PickerSkipsTypeCheck(other: FileHandle)
    returns (picked: Option<FileHandle>, dropped: Option<FileHandle>)
    requires other.mediaType != PdfType
    ensures picked == Some(other) && dropped == None
  {
    var a := new App();
    a.HandleFileChange(Some(other));
    picked := a.file;
    var b := new App();
    b.HandleDrop(Some(other));
    dropped := b.file;
  }

  /** The buttons around one submission: while the request is out both
      the extract and the clear button are disabled; once the outcome is
      in, both are enabled again, since the file is still selected. */
  method ButtonsAroundSubmit(report: FileHandle, response: Response)
    returns (submitDuring: bool, clearDuring: bool, submitAfter: bool, clearAfter: bool)
    ensures !submitDuring && !clearDuring
    ensures submitAfter && clearAfter
  {
    var app := new App();
    app.HandleFileChange(Some(report));
    var request := app.HandleSubmitBegin();
    submitDuring, clearDuring := app.SubmitEnabled(), app.ClearEnabled();
    app.HandleSubmitComplete(response);
    submitAfter, clearAfter := app.SubmitEnabled(), app.ClearEnabled();
  }
}
