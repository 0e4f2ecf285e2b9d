/** The `MainApp` component of frontend/src/MainApp.jsx (its header calls
    it version 5.0), the one frontend/src/main.jsx mounts: a file input, a
    model selector and an extract button talking to the remote extraction
    endpoint. There is no drop zone, no type check and no progress bar.
    `extractReport` is split at its `await` into `ExtractReportBegin` and
    `ExtractReportComplete`. */
module MainAppV5 {
  import opened Upload
  import opened Numerals

  const ApiErrorPrefix: string := "API Error "

  /** Reads a message `API Error <status>: <body>` back into its status and
      body; the status ends at the first non-digit. */
  function ParseApiError(m: string): Option<(nat, string)>
  {
    if |m| < |ApiErrorPrefix| || m[..|ApiErrorPrefix|] != ApiErrorPrefix then None
    else
      var rest := m[|ApiErrorPrefix|..];
      var k := DigitSpan(rest);
      if k == 0 || |rest| < k + 2 || rest[k..k + 2] != ": " then None
      else Some((DecimalValue(rest[..k]), rest[k + 2..]))
  }

  /** The message `extractReport` stores in `errorMessage` when its request
      fails: a non-2xx reply shows the decimal text of its status and its
      body text verbatim, both recoverable from the message; a bad body or a failed fetch show
      the rejection's own message. */
  function FailureMessage(r: Response): (m: string)
    requires !r.Ok?
    ensures r.HttpError? ==> m == ApiErrorPrefix + Decimal(r.status) + ": " + r.bodyText
    ensures r.HttpError? ==> ParseApiError(m) == Some((r.status, r.bodyText))
    ensures !r.HttpError? ==> m == r.message
  {
    match r
    case HttpError(status, bodyText) =>
      var digits := Decimal(status);
      var m := ApiErrorPrefix + digits + ": " + bodyText;
      var rest := m[|ApiErrorPrefix|..];
      assert m[..|ApiErrorPrefix|] == ApiErrorPrefix;
      assert rest == digits + (": " + bodyText);
      DigitSpanStops(digits, ": " + bodyText);
      assert rest[..|digits|] == digits;
      assert rest[|digits|..|digits| + 2] == ": ";
      assert rest[|digits| + 2..] == bodyText;
      DecimalValueRoundTrip(status);
      m
    case BadJson(message) => message
    case Transport(message) => message
  }

  class MainApp {
    var selectedFile: Option<FileHandle>
    var aiModel: ModelId
    var isProcessing: bool
    var downloadUrl: string
    var errorMessage: string

    constructor ()
      ensures selectedFile == None && aiModel == DefaultModel && !isProcessing
      ensures downloadUrl == "" && errorMessage == ""
    {
      selectedFile := None;
      aiModel := DefaultModel;
      isProcessing := false;
      downloadUrl := "";
      errorMessage := "";
    }

    /** The extract button is enabled unless `isProcessing || !selectedFile`. */
    predicate SubmitEnabled()
      reads this
    {
      !isProcessing && selectedFile.Some?
    }

    /** `onFileSelect`: the picked item, PDF or not, or nothing when the
        dialog was cancelled, becomes the selection; the outcome is cleared. */
    method OnFileSelect(picked: Option<FileHandle>)
      modifies this`selectedFile, this`errorMessage, this`downloadUrl
      ensures selectedFile == picked && errorMessage == "" && downloadUrl == ""
    {
      selectedFile := picked;
      errorMessage := "";
      downloadUrl := "";
    }

    /** The `<select>` offers exactly the two model identifiers. */
    method SelectModel(m: ModelId)
      modifies this`aiModel
      ensures aiModel == m
    {
      aiModel := m;
    }

    /** `extractReport` up to its `await`: without a selection nothing
        happens and no request is issued; otherwise `isProcessing` is raised
        and the request carries the selection and model as they are now. */
    method ExtractReportBegin() returns (request: Option<Payload>)
      modifies this`isProcessing
      ensures request.Some? <==> old(selectedFile).Some?
      ensures old(selectedFile).None? ==> isProcessing == old(isProcessing)
      ensures old(selectedFile).Some? ==>
        isProcessing && request.value == Payload(old(selectedFile).value, aiModel)
    {
      if selectedFile.None? {
        return None;
      }
      isProcessing := true;
      request := Some(Payload(selectedFile.value, aiModel));
    }

    /** `extractReport` after its `await`: success shows the link and clears
        the error; failure sets the error and keeps any earlier link;
        `isProcessing` drops in every case. */
    method ExtractReportComplete(response: Response)
      modifies this`isProcessing, this`downloadUrl, this`errorMessage
      ensures !isProcessing
      ensures response.Ok? ==> downloadUrl == response.pdfUrl && errorMessage == ""
      ensures !response.Ok? ==>
        errorMessage == FailureMessage(response) && downloadUrl == old(downloadUrl)
    {
      match response {
        case Ok(pdfUrl) =>
          downloadUrl := pdfUrl;
          errorMessage := "";
        case _ =>
          errorMessage := FailureMessage(response);
      }
      isProcessing := false;
    }
  }

  /** A run of the mounted component: pick a file, choose the thorough
      model, extract. The request carries both choices; a 2xx reply leaves
      its link and no error, a non-2xx reply leaves a message that holds the
      reply's status and body, and the button is enabled again afterwards. */
  method ExtractRun(report: FileHandle, response: Response)
    returns (request: Option<Payload>, downloadUrl: string, errorMessage: string, enabled: bool)
    ensures request == Some(Payload(report, Pro))
    ensures response.Ok? ==> downloadUrl == response.pdfUrl && errorMessage == ""
    ensures response.HttpError? ==>
      downloadUrl == "" && ParseApiError(errorMessage) == Some((response.status, response.bodyText))
    ensures enabled
  {
    var app := new MainApp();
    app.OnFileSelect(Some(report));
    app.SelectModel(Pro);
    request := app.ExtractReportBegin();
    app.ExtractReportComplete(response);
    downloadUrl, errorMessage, enabled := app.downloadUrl, app.errorMessage, app.SubmitEnabled();
  }

  /** Unlike frontend/src/App.jsx, a successful retry after a failure clears
      the earlier error, and a failure after a success keeps the old link. */
  method RetryOutcomes(report: FileHandle, status: nat, bodyText: string, pdfUrl: string)
    returns (errorAfterRetry: string, linkAfterFailure: string, errorAfterFailure: string)
    ensures errorAfterRetry == ""
    ensures linkAfterFailure == pdfUrl
    ensures ParseApiError(errorAfterFailure) == Some((status, bodyText))
  {
    var app := new MainApp();
    app.OnFileSelect(Some(report));
    var first := app.ExtractReportBegin();
    app.ExtractReportComplete(HttpError(status, bodyText));
    var second := app.ExtractReportBegin();
    app.ExtractReportComplete(Ok(pdfUrl));
    errorAfterRetry := app.errorMessage;
    var third := app.ExtractReportBegin();
    app.ExtractReportComplete(HttpError(status, bodyText));
    linkAfterFailure, errorAfterFailure := app.downloadUrl, app.errorMessage;
  }
}
