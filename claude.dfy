/** The table reorganizer: one call to the hosted model per request, with the
    reply or the failure reported back. */
module Claude {
  import opened Wrappers

  /** Every failure of the call reaches the caller behind this prefix. */
  const ClaudePrefix := "Claude API processing failed: "

  /** The parameters of `messages.create` that vary between the two entry points. */
  datatype Settings = Settings(model: string, maxTokens: nat)

  /** The defaults of `organize_markdown_with_claude` in backend/app.py. */
  const BackendSettings := Settings("claude-sonnet-4-20250514", 20000)

  /** One outgoing request; the fixed instruction text around `markdown` is not modelled. */
  datatype ClaudeRequest = ClaudeRequest(model: string, maxTokens: nat, temperature: int, markdown: string)

  function RequestFor(settings: Settings, markdown: string): ClaudeRequest
  {
    ClaudeRequest(settings.model, settings.maxTokens, 0, markdown)
  }

  /** The process-wide client. `answer` is what the remote service replies to a request
      (the text of the first content block, or what the call raised); `sent` records
      every request made through this client. */
  class Client {
    const answer: ClaudeRequest -> Result<string>
    var sent: seq<ClaudeRequest>

    constructor (answer: ClaudeRequest -> Result<string>)
      ensures this.answer == answer && sent == []
    {
      this.answer := answer;
      sent := [];
    }

    /** `organize_markdown_with_claude(markdown, model, max_tokens)`: exactly one request is
        sent; a failure is re-raised with the prefix. */
    method OrganizeMarkdownWithClaude(markdown: string, settings: Settings) returns (r: Result<string>)
      modifies this
      ensures sent == old(sent) + [RequestFor(settings, markdown)]
      ensures answer(RequestFor(settings, markdown)).Success? ==> r == answer(RequestFor(settings, markdown))
      ensures answer(RequestFor(settings, markdown)).Failure? ==>
        r == Failure(ClaudePrefix + answer(RequestFor(settings, markdown)).error)
    {
      var request := RequestFor(settings, markdown);
      sent := sent + [request];
      var reply := answer(request);
      if reply.Failure? {
        return Failure(ClaudePrefix + reply.error);
      }
      r := reply;
    }
  }
}
