/** The older top-level entry point `app.py`. Its handlers make the same decisions as
    those of backend/app.py; only the reorganizer request it sends is different. */
module RootApp {
  import opened Wrappers
  import opened TempFiles
  import opened Conversion
  import opened Claude
  import opened Routes

  /** `app.py` hard-codes the model and the token limit of its reorganizer call. */
  const RootSettings := Settings("claude-3-5-sonnet-20241022", 4000)

  /** `organize_markdown_with_claude(markdown_content)` of app.py. */
  method OrganizeMarkdownWithClaude(client: Client, markdown: string) returns (r: Result<string>)
    modifies client
    ensures client.sent == old(client.sent) + [ClaudeRequest("claude-3-5-sonnet-20241022", 4000, 0, markdown)]
    ensures client.answer(RequestFor(RootSettings, markdown)).Success? ==> r == client.answer(RequestFor(RootSettings, markdown))
    ensures client.answer(RequestFor(RootSettings, markdown)).Failure? ==>
      r == Failure(ClaudePrefix + client.answer(RequestFor(RootSettings, markdown)).error)
  {
    r := client.OrganizeMarkdownWithClaude(markdown, RootSettings);
  }

  /** `process_pdf_to_markdown` of app.py: the same normalise, convert and cleanup steps. */
  method ProcessPdfToMarkdown(store: TempStore, data: seq<bv8>, password: Option<string>, o: PdfOracles)
    returns (r: Result<string>)
    requires store.Valid()
    modifies store
    ensures store.Valid()
    ensures r == ProcessingResult(data, password, o)
    ensures store.files == Residue(old(store.files), old(store.next), data, password, o)
    ensures store.next == old(store.next) + if MakesCopy(password, o) then 2 else 1
  {
    r := Conversion.ProcessPdfToMarkdown(store, data, password, o);
  }

  /** `process_pdf` of app.py. */
  method ProcessPdf(store: TempStore, client: Client, apiKey: Option<string>, req: Request, o: PdfOracles)
    returns (resp: Response)
    requires store.Valid()
    modifies store, client
    ensures store.Valid()
    ensures resp == FullRoute(RootSettings, req, apiKey, o, client.answer)
    ensures client.sent == old(client.sent) + ReorganizerCalls(RootSettings, req, apiKey, o)
    ensures !Accepted(req) ==> store.files == old(store.files) && store.next == old(store.next)
    ensures Accepted(req) ==>
      store.files == Residue(old(store.files), old(store.next), req.files["file"].data, Password(req), o)
  {
    resp := Routes.ProcessPdf(RootSettings, store, client, apiKey, req, o);
  }

  /** `process_pdf_raw_only` of app.py. */
  method ProcessPdfRaw(store: TempStore, client: Client, req: Request, o: PdfOracles) returns (resp: Response)
    requires store.Valid()
    modifies store
    ensures store.Valid()
    ensures resp == RawRoute(req, o)
    ensures client.sent == old(client.sent)
    ensures !Accepted(req) ==> store.files == old(store.files) && store.next == old(store.next)
    ensures Accepted(req) ==>
      store.files == Residue(old(store.files), old(store.next), req.files["file"].data, Password(req), o)
  {
    resp := Routes.ProcessPdfRaw(store, client, req, o);
  }

  /** For every request the two entry points answer with the same status and the same
      fields, apart from `organized_markdown`, which depends on the reorganizer request. */
  lemma EntryPointsAgree(req: Request, apiKey: Option<string>, o: PdfOracles, answer: ClaudeRequest -> Result<string>)
    ensures FullRoute(RootSettings, req, apiKey, o, answer).status == FullRoute(BackendSettings, req, apiKey, o, answer).status
    ensures FullRoute(RootSettings, req, apiKey, o, answer).body - {"organized_markdown"} ==
            FullRoute(BackendSettings, req, apiKey, o, answer).body - {"organized_markdown"}
  {
  }
}
