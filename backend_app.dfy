/** The entry point backend/app.py: its `process_pdf` calls the reorganizer with the
    default model and token limit of `organize_markdown_with_claude`. */
module BackendApp {
  import opened Wrappers
  import opened TempFiles
  import opened Conversion
  import opened Claude
  import opened Routes

  /** `process_pdf` of backend/app.py. */
  method ProcessPdf(store: TempStore, client: Client, apiKey: Option<string>, req: Request, o: PdfOracles)
    returns (resp: Response)
    requires store.Valid()
    modifies store, client
    ensures store.Valid()
    ensures resp == FullRoute(BackendSettings, req, apiKey, o, client.answer)
    ensures client.sent == old(client.sent) + ReorganizerCalls(BackendSettings, req, apiKey, o)
    ensures forall i :: |old(client.sent)| <= i < |client.sent| ==>
      client.sent[i].model == "claude-sonnet-4-20250514" && client.sent[i].maxTokens == 20000
    ensures !Accepted(req) ==> store.files == old(store.files) && store.next == old(store.next)
    ensures Accepted(req) ==>
      store.files == Residue(old(store.files), old(store.next), req.files["file"].data, Password(req), o)
  {
    resp := Routes.ProcessPdf(BackendSettings, store, client, apiKey, req, o);
  }
}
