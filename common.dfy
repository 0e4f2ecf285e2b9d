/** Values shared by the three upload controllers: the picked file, the
    closed set of model identifiers, the request payload and the abstract
    outcome of the one outbound request. */
module Upload {

  datatype Option<T> = None | Some(value: T)

  /** A browser File as the controllers see it: only its name, size and
      media type are ever inspected. */
  datatype FileHandle = FileHandle(name: string, sizeBytes: nat, mediaType: string)

  const PdfType: string := "application/pdf"

  /** The drop and selection guard `file && file.type === 'application/pdf'`:
      a missing file (a cancelled picker, an empty drop) never passes. */
  predicate IsPdf(file: Option<FileHandle>)
  {
    file.Some? && file.value.mediaType == PdfType
  }

  /** The two entries of the model selector. */
  datatype ModelId = Flash | Pro

  const DefaultModel: ModelId := Flash

  /** The string sent as the `model` form field. */
  function ModelValue(m: ModelId): (s: string)
    ensures |s| > 11 && s[..11] == "gemini-2.0-"
  {
    match m
    case Flash => "gemini-2.0-flash"
    case Pro => "gemini-2.0-pro"
  }

  /** Reads a selector value back; anything but the two option values is
      not a model. */
  function ParseModelValue(s: string): (r: Option<ModelId>)
    ensures r.Some? ==> ModelValue(r.value) == s
  {
    if s == "gemini-2.0-flash" then Some(Flash)
    else if s == "gemini-2.0-pro" then Some(Pro)
    else None
  }

  /** The selector never produces a value outside the closed set, and the
      two identifiers are told apart by the string on the wire. */
  lemma ModelValueRoundTrip(m: ModelId)
    ensures ParseModelValue(ModelValue(m)) == Some(m)
  {
    match m
    case Flash =>
    case Pro =>
      assert ModelValue(Pro)[11] == 'p' != "gemini-2.0-flash"[11];
  }

  /** The multipart body: `report` is the selected file, `model` the
      selected identifier, both as they were when the submit began. */
  datatype Payload = Payload(report: FileHandle, model: ModelId)

  /** What the awaited `fetch` and body read come back with. `Ok` is a 2xx
      reply whose JSON carries `pdfUrl`; `BadJson` a 2xx reply whose body
      does not parse (the rejection's message); `HttpError` a non-2xx reply
      with its status and body text; `Transport` a rejected `fetch`. */
  datatype Response =
    | Ok(pdfUrl: string)
    | BadJson(message: string)
    | HttpError(status: nat, bodyText: string)
    | Transport(message: string)
}
