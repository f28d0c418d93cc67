/** The two processing routes of the service: upload validation, the call into the
    conversion pipeline, the optional reorganizer stage and the JSON responses. */
module Routes {
  import opened Wrappers
  import opened Text
  import opened TempFiles
  import opened Conversion
  import opened Claude

  const NoFileProvided := "No file provided"
  const NoFileSelected := "No file selected"
  const NotAPdf := "File must be a PDF"
  const KeyNotConfigured := "Anthropic API key not configured"

  /** One part of `request.files`: the client's file name and the uploaded bytes. */
  datatype Upload = Upload(filename: string, data: seq<bv8>)

  /** A multipart request: its file parts and its plain form fields, by field name. */
  datatype Request = Request(files: map<string, Upload>, form: map<string, string>)

  datatype Json = JBool(b: bool) | JString(s: string)

  /** A JSON object together with its HTTP status (200 unless the handler says otherwise). */
  datatype Response = Response(status: nat, body: map<string, Json>)

  function ErrorResponse(status: nat, message: string): Response
  {
    Response(status, map["error" := JString(message)])
  }

  /** The request passes all three upload checks. A name that ends in ".pdf" is never
      empty, so the second check is implied by the third. */
  predicate Accepted(req: Request)
    ensures Accepted(req) <==> "file" in req.files && HasPdfSuffix(req.files["file"].filename)
  {
    "file" in req.files && req.files["file"].filename != "" && HasPdfSuffix(req.files["file"].filename)
  }

  /** `request.form.get("password")` */
  function Password(req: Request): (password: Option<string>)
    ensures password.Some? <==> "password" in req.form
    ensures password.Some? ==> password.value == req.form["password"]
  {
    if "password" in req.form then Some(req.form["password"]) else None
  }

  /** The three upload checks, in order; the first that fails decides the 400 response,
      and `None` lets the request through. */
  function Validate(req: Request): (r: Option<Response>)
    ensures r.None? <==> Accepted(req)
    ensures r.Some? ==> r.value.status == 400 && r.value.body.Keys == {"error"}
    ensures "file" !in req.files ==> r == Some(ErrorResponse(400, NoFileProvided))
    ensures "file" in req.files && req.files["file"].filename == "" ==> r == Some(ErrorResponse(400, NoFileSelected))
    ensures "file" in req.files && req.files["file"].filename != "" && !HasPdfSuffix(req.files["file"].filename) ==>
      r == Some(ErrorResponse(400, NotAPdf))
  {
    if "file" !in req.files then Some(ErrorResponse(400, NoFileProvided))
    else if req.files["file"].filename == "" then Some(ErrorResponse(400, NoFileSelected))
    else if !HasPdfSuffix(req.files["file"].filename) then Some(ErrorResponse(400, NotAPdf))
    else None
  }

  /** The `organized_markdown` field: a sentinel without a key, the reorganizer's text, or
      its failure message, prefixed once by the reorganizer and once more by the route. */
  function OrganizedMarkdown(settings: Settings, apiKey: Option<string>, answer: ClaudeRequest -> Result<string>, raw: string): (r: string)
    ensures !NonEmpty(apiKey) ==> r == KeyNotConfigured
    ensures NonEmpty(apiKey) && answer(RequestFor(settings, raw)).Success? ==> r == answer(RequestFor(settings, raw)).value
    ensures NonEmpty(apiKey) && answer(RequestFor(settings, raw)).Failure? ==>
      r == ClaudePrefix + ClaudePrefix + answer(RequestFor(settings, raw)).error
  {
    if !NonEmpty(apiKey) then KeyNotConfigured
    else match answer(RequestFor(settings, raw))
      case Success(text) => text
      case Failure(cause) => ClaudePrefix + (ClaudePrefix + cause)
  }

  /** What `process_pdf` returns, for every request and every behaviour of the libraries
      and of the remote reorganizer. */
  function FullRoute(settings: Settings, req: Request, apiKey: Option<string>, o: PdfOracles, answer: ClaudeRequest -> Result<string>): (resp: Response)
    ensures resp.status == 200 || resp.status == 400 || resp.status == 500
    ensures resp.status == 400 <==> !Accepted(req)
    ensures !Accepted(req) ==> Some(resp) == Validate(req)
    ensures resp.status == 500 <==> Accepted(req) && ProcessingResult(req.files["file"].data, Password(req), o).Failure?
    ensures resp.status == 500 ==>
      resp.body.Keys == {"error"} && resp.body["error"].JString? && StartsWith(resp.body["error"].s, ProcessingPrefix)
    ensures resp.status == 500 ==> resp == ErrorResponse(500, ProcessingResult(req.files["file"].data, Password(req), o).error)
    ensures resp.status == 200 ==>
      && resp.body.Keys == {"success", "raw_markdown", "organized_markdown", "filename"}
      && resp.body["success"] == JBool(true)
      && resp.body["raw_markdown"] == JString(ProcessingResult(req.files["file"].data, Password(req), o).value)
      && resp.body["filename"] == JString(req.files["file"].filename)
      && resp.body["organized_markdown"] ==
           JString(OrganizedMarkdown(settings, apiKey, answer, ProcessingResult(req.files["file"].data, Password(req), o).value))
  {
    match Validate(req)
    case Some(rejection) => rejection
    case None =>
      var upload := req.files["file"];
      match ProcessingResult(upload.data, Password(req), o)
      case Failure(message) => ErrorResponse(500, message)
      case Success(raw) =>
        Response(200, map[
          "success" := JBool(true),
          "raw_markdown" := JString(raw),
          "organized_markdown" := JString(OrganizedMarkdown(settings, apiKey, answer, raw)),
          "filename" := JString(upload.filename)])
  }

  /** The requests `process_pdf` sends to the reorganizer: one exactly when the upload is
      accepted, converted, and a key is configured. */
  function ReorganizerCalls(settings: Settings, req: Request, apiKey: Option<string>, o: PdfOracles): (calls: seq<ClaudeRequest>)
    ensures |calls| <= 1
    ensures calls != [] <==> Accepted(req) && ProcessingResult(req.files["file"].data, Password(req), o).Success? && NonEmpty(apiKey)
    ensures calls != [] ==> calls[0] == RequestFor(settings, ProcessingResult(req.files["file"].data, Password(req), o).value)
  {
    if Accepted(req) && NonEmpty(apiKey) then
      match ProcessingResult(req.files["file"].data, Password(req), o)
      case Success(raw) => [RequestFor(settings, raw)]
      case Failure(_) => []
    else []
  }

  /** What `process_pdf_raw_only` returns. */
  function RawRoute(req: Request, o: PdfOracles): (resp: Response)
    ensures resp.status == 200 || resp.status == 400 || resp.status == 500
    ensures resp.status == 400 <==> !Accepted(req)
    ensures !Accepted(req) ==> Some(resp) == Validate(req)
    ensures resp.status == 500 <==> Accepted(req) && ProcessingResult(req.files["file"].data, Password(req), o).Failure?
    ensures resp.status == 500 ==>
      resp.body.Keys == {"error"} && resp.body["error"].JString? && StartsWith(resp.body["error"].s, ProcessingPrefix)
    ensures resp.status == 500 ==> resp == ErrorResponse(500, ProcessingResult(req.files["file"].data, Password(req), o).error)
    ensures resp.status == 200 ==>
      && resp.body.Keys == {"success", "raw_markdown", "filename"}
      && resp.body["success"] == JBool(true)
      && resp.body["raw_markdown"] == JString(ProcessingResult(req.files["file"].data, Password(req), o).value)
      && resp.body["filename"] == JString(req.files["file"].filename)
  {
    match Validate(req)
    case Some(rejection) => rejection
    case None =>
      var upload := req.files["file"];
      match ProcessingResult(upload.data, Password(req), o)
      case Failure(message) => ErrorResponse(500, message)
      case Success(raw) =>
        Response(200, map["success" := JBool(true), "raw_markdown" := JString(raw), "filename" := JString(upload.filename)])
  }

  /** The raw route answers every request as the full route does, except that a success
      lacks the `organized_markdown` field. */
  lemma RawAgreesWithFull(settings: Settings, req: Request, apiKey: Option<string>, o: PdfOracles, answer: ClaudeRequest -> Result<string>)
    ensures RawRoute(req, o).status == FullRoute(settings, req, apiKey, o, answer).status
    ensures RawRoute(req, o).status != 200 ==> RawRoute(req, o) == FullRoute(settings, req, apiKey, o, answer)
    ensures RawRoute(req, o).status == 200 ==>
      RawRoute(req, o).body == FullRoute(settings, req, apiKey, o, answer).body - {"organized_markdown"}
  {
  }

  /** `process_pdf`. A rejected upload touches no file and sends nothing; otherwise the
      temporary files end as the conversion leaves them, and the reorganizer is asked at
      most once. */
  method ProcessPdf(settings: Settings, store: TempStore, client: Client, apiKey: Option<string>, req: Request, o: PdfOracles)
    returns (resp: Response)
    requires store.Valid()
    modifies store, client
    ensures store.Valid()
    ensures resp == FullRoute(settings, req, apiKey, o, client.answer)
    ensures client.sent == old(client.sent) + ReorganizerCalls(settings, req, apiKey, o)
    ensures !Accepted(req) ==> store.files == old(store.files) && store.next == old(store.next)
    ensures Accepted(req) ==>
      store.files == Residue(old(store.files), old(store.next), req.files["file"].data, Password(req), o)
  {
    var rejection := Validate(req);
    if rejection.Some? {
      return rejection.value;
    }
    var upload := req.files["file"];
    var raw := ProcessPdfToMarkdown(store, upload.data, Password(req), o);
    if raw.Failure? {
      return ErrorResponse(500, raw.error);
    }
    var organized: string;
    if NonEmpty(apiKey) {
      var outcome := client.OrganizeMarkdownWithClaude(raw.value, settings);
      organized := if outcome.Success? then outcome.value else ClaudePrefix + outcome.error;
    } else {
      organized := KeyNotConfigured;
    }
    resp := Response(200, map[
      "success" := JBool(true),
      "raw_markdown" := JString(raw.value),
      "organized_markdown" := JString(organized),
      "filename" := JString(upload.filename)]);
  }

  /** `process_pdf_raw_only`: the same pipeline, and the reorganizer is never called. */
  method ProcessPdfRaw(store: TempStore, client: Client, req: Request, o: PdfOracles) returns (resp: Response)
    requires store.Valid()
    modifies store
    ensures store.Valid()
    ensures resp == RawRoute(req, o)
    ensures client.sent == old(client.sent)
    ensures !Accepted(req) ==> store.files == old(store.files) && store.next == old(store.next)
    ensures Accepted(req) ==>
      store.files == Residue(old(store.files), old(store.next), req.files["file"].data, Password(req), o)
  {
    var rejection := Validate(req);
    if rejection.Some? {
      return rejection.value;
    }
    var upload := req.files["file"];
    var raw := ProcessPdfToMarkdown(store, upload.data, Password(req), o);
    if raw.Failure? {
      return ErrorResponse(500, raw.error);
    }
    resp := Response(200, map["success" := JBool(true), "raw_markdown" := JString(raw.value), "filename" := JString(upload.filename)]);
  }
}
