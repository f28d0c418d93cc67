# PDF-to-Markdown service: request handling model

A Dafny model of the request-handling logic of a small Flask service that accepts an
uploaded PDF, optionally removes its password protection, converts it to Markdown and
optionally asks a hosted language model to reorganize the tables in it.

The service has two near-identical entry points, `backend/app.py` and `app.py`. The
shared logic is modelled once, from `backend/app.py`. The `RootApp` module gives the
handlers of `app.py`, which differ only in the model name and token limit of the
reorganizer request.

Modules, one per component:

- `Wrappers`: `Option`, `Result` (a value or an exception message) and `Step` (a library call
  that returns nothing and may raise).
- `Text`: Python truthiness of an optional string, ASCII `str.lower`, and the
  `.lower().endswith(".pdf")` test.
- `TempFiles`: the temporary-file store. It is a class holding the live files (path to
  content) and a counter that makes every new name unique. Its methods are create, save
  and unlink.
- `PdfWriting`: the page list of a `PdfWriter`.
- `Conversion`: `process_pdf_to_markdown`. `Normalize` saves the upload and, for an
  encrypted PDF with a password, copies every page into a writer in a loop and saves a
  second temporary file. `ProcessPdfToMarkdown` converts the chosen file, cleans up and
  wraps errors. Pure functions (`ConverterInput`, `ProcessingResult`, `Created`, `Removed`,
  `Residue`) specify the outcome and the temporary files left behind, and lemmas state
  the source's promises about them.
- `Claude`: the reorganizer client. It records every request it sends, so "this route
  never calls the reorganizer" is a stated postcondition.
- `Routes`: validation, the `organized_markdown` field and the two processing routes,
  both as pure response functions and as handler methods proved against them.
- `BackendApp` and `RootApp`: the `process_pdf` handler of each entry point, with the
  reorganizer settings it uses; `RootApp` also gives the other handlers of `app.py`.

Foreign calls are inputs. `PdfOracles` says, for one request, whether saving the upload
raises, whether `PdfReader` raises and what `is_encrypted` is, whether `decrypt` raises,
the reader's pages or what iterating them raises, whether `writer.write` raises, what
the converter returns for a given file content, and whether each `os.unlink` raises.
The reorganizer's reply is the `answer` function of the `Claude.Client`, applied to the
request sent. The environment's API key is an `Option<string>` input.

The code removes temporary files only after a successful conversion, and the model
follows the code. These behaviours are kept as written:

- Temporary files are removed only after a successful conversion. An exception raised
  earlier leaves every temporary file of the request on disk. So does a failing first
  `os.unlink`, which also skips the second. See `FailureLeavesTempFiles` and
  `FirstUnlinkErrorSkipsSecond`.
- A wrong password has no distinct error. The result of `decrypt` is ignored. Whatever
  the PDF library raises later (when the pages are read) is reported with the generic
  `"PDF processing failed: "` prefix.
- A reorganizer failure is reported as `"Claude API processing failed: "` twice, followed
  by the cause. The reorganizer function adds the prefix and the route adds it again.

## Model

| member | source | states |
|---|---|---|
| Text.NonEmpty | backend/app.py:29 | Python truthiness of the optional password or key: false exactly for `None` and `""` |
| Text.HasPdfSuffix | backend/app.py:138 | `.lower().endswith(".pdf")`; a name that passes has at least four characters, the fourth from the end a `.` |
| Text.Lower | backend/app.py:138 | lower-casing keeps the length and lowers every character in place |
| Text.PdfSuffixCaseInsensitive | backend/app.py:138-139 | a file name passes the PDF test exactly when its last four characters are `.`, `p`/`P`, `d`/`D`, `f`/`F` |
| Text.PdfSuffixExamples | backend/app.py:138-139 | "REPORT.PDF" and "statement.Pdf" pass; "x.pdf.txt" and "pdf" fail |
| TempFiles.TempStore.Create | backend/app.py:24 | a new temporary file is empty and has a name not in use; the counter advances |
| TempFiles.TempStore.Save | backend/app.py:25 | the content is written only when the library call does not raise |
| TempFiles.TempStore.Unlink | backend/app.py:55-58 | unlink succeeds exactly when the file exists and the OS does not refuse; only then is the file gone |
| PdfWriting.PdfWriter.AddPage | backend/app.py:36-38 | adding a page appends it after the pages already added |
| Conversion.Normalize | backend/app.py:24-49 | the first temporary file holds the upload. A second file exists exactly when the password is non-empty, the PDF is encrypted, and decrypting and reading the pages do not raise. It holds the reader's pages in order and becomes the converter's input |
| Conversion.ConverterInput | backend/app.py:24-49 | with no password or `""`, the converter gets the upload itself; an encrypted PDF with a password gets the rebuilt pages; nothing else is ever converted. A raising save, reader, decrypt, page read or write fails with that call's cause |
| Conversion.ProcessingResult | backend/app.py:20-65 | the result is the converter's text for the chosen input; a failure before or in conversion is "PDF processing failed: " followed by the cause |
| Conversion.Created | backend/app.py:24-45 | the request creates the first temporary file, and the second only when it makes the unprotected copy |
| Conversion.Removed | backend/app.py:55-60 | files are removed only from those the request created and only after a successful conversion; then the first goes iff its unlink succeeds, and the copy goes iff it was made and both unlinks succeed |
| Conversion.ProcessPdfToMarkdown | backend/app.py:20-65 | returns the processing result. The live files end as the old ones plus those created minus those removed, and exactly one or two new names are used |
| Conversion.PasswordIgnoredWhenUnencrypted | backend/app.py:29-47 | a non-empty password on an unencrypted PDF gives the same result and the same temporary files as no password |
| Conversion.CleanupErrorsSwallowed | backend/app.py:55-62 | unlink errors never change the returned result |
| Conversion.CleanSuccessLeavesNothing | backend/app.py:55-60 | after a successful conversion whose attempted unlinks succeed, the live files are exactly those before the request |
| Conversion.FailureLeavesTempFiles | backend/app.py:22-65 | if anything raises before cleanup, nothing is unlinked; the first file, and the second if made, stay |
| Conversion.FirstUnlinkErrorSkipsSecond | backend/app.py:55-60 | a failing first unlink skips the second; every created file stays |
| Conversion.SecondUnlinkErrorKeepsCopy | backend/app.py:55-60 | when the first unlink succeeds and the second raises, the error is swallowed and only the unprotected copy stays |
| Conversion.SecondFileOnlyForEncrypted | backend/app.py:29-45 | the second file exists iff the copy is made, which needs a password and an encrypted PDF; it holds the reader's pages |
| Claude.Client.OrganizeMarkdownWithClaude | backend/app.py:68-117 | sends exactly one request with the given model, token limit, temperature 0 and the Markdown; on failure it raises with "Claude API processing failed: " |
| Routes.Password | backend/app.py:142 | the password is present exactly when the form has the field, and then is its value |
| Routes.Accepted | backend/app.py:131-139 | the upload passes iff the file part exists and its name passes the suffix test; the non-empty check is implied by the suffix check |
| Routes.Validate | backend/app.py:131-139 | the three checks run in order, each with its own message and status 400; the request passes iff all three hold |
| Routes.OrganizedMarkdown | backend/app.py:147-156 | the field is the key-missing sentinel, the reorganizer's text, or its cause behind the prefix twice |
| Routes.ReorganizerCalls | backend/app.py:147-156 | the reorganizer is asked once exactly when the upload is accepted, converted and a key is set, and with the raw Markdown |
| Routes.FullRoute | backend/app.py:126-168 | 400 iff rejected (with the validation response), 500 iff the conversion fails, with body exactly `{"error": "PDF processing failed: <cause>"}`, else 200 with exactly the four fields, the file name echoed; a reorganizer failure never gives 500 |
| Routes.RawRoute | backend/app.py:171-193 | 400 iff rejected, 500 iff the conversion fails with body exactly the processing error, else 200 with exactly `success`, `raw_markdown` and `filename`, the file name echoed verbatim |
| Routes.RawAgreesWithFull | backend/app.py:171-193 | the raw route answers as the full route does, except that its success lacks `organized_markdown` |
| Routes.ProcessPdf | backend/app.py:126-168 | the handler for any reorganizer settings: responds as `FullRoute`. The reorganizer gets exactly the requests of `ReorganizerCalls`. A rejected upload leaves the files untouched; otherwise they end as the conversion leaves them |
| Routes.ProcessPdfRaw | backend/app.py:171-193 | responds as `RawRoute`, sends no reorganizer request, and leaves the same temporary files as the conversion |
| BackendApp.ProcessPdf | backend/app.py:145-151 | responds as `FullRoute` with the defaults "claude-sonnet-4-20250514" and 20000 tokens, and every request it sends carries them; files as for the conversion |
| RootApp.OrganizeMarkdownWithClaude | app.py:63-103 | sends one request with model "claude-3-5-sonnet-20241022", 4000 tokens and temperature 0; failures carry the prefix |
| RootApp.ProcessPdfToMarkdown | app.py:19-61 | the same result and temporary-file effect as in backend/app.py |
| RootApp.ProcessPdf | app.py:110-150 | responds as `FullRoute` with this file's settings; reorganizer requests and temporary files as in backend/app.py |
| RootApp.ProcessPdfRaw | app.py:152-176 | responds as `RawRoute`, never calls the reorganizer |
| RootApp.EntryPointsAgree | app.py:110-150 | both entry points give the same status and the same fields apart from `organized_markdown` |

## Left out

- PDF parsing, `is_encrypted`, `decrypt`, page reading and writing (PyPDF2), Markdown
  conversion (MarkItDown) and the remote model call are foreign code. They are the
  oracle inputs above. `decrypt`'s return value is ignored by the source, so a wrong
  password fails only if the library raises.
- The fixed instruction texts of the reorganizer request are not modelled. A
  `ClaudeRequest` records the model, the token limit, the temperature and the Markdown
  it embeds.
- `NamedTemporaryFile` itself raising is not modelled; creating a temporary file always
  succeeds. The content of a file after a save or write that raised is modelled as empty
  rather than as partial output.
- Exceptions from `writer.add_page` and from `jsonify` are not modelled. Opening the
  saved file for reading is folded into the reader outcome.
- Flask routing, multipart parsing, JSON serialisation and `load_dotenv` are plumbing.
  The request is a value with its file parts and form fields. The response is a status
  with a JSON object. The API key is one input. The client is built from the key at
  start-up while the route reads it per request; the model assumes both see the same
  value.
- The `/health` route returns a constant. The listening ports (5001 and 5000) and debug
  flags are not modelled.
- `str.lower` is modelled on ASCII letters only. No other character lowers to one of
  `.pdf`, so the suffix test is unaffected.
- Concurrent requests are out of scope; each handler runs alone on the store.
- backend/format_markdown.py and backend/pdf2markdown.py are one-off scripts of file
  I/O and foreign calls, and are not part of this model.
